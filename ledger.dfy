/**
 * The payment table as a mutable store: payment creation in test and live
 * mode, the payment page's submission, and the gateway's webhook.
 */
module Ledger {
  import opened Common
  import opened PaymentAmounts
  import opened Payments
  import opened Access

  /** Where the user is sent after a payment attempt. */
  datatype NextStep = ToSuccessPage(payment: PaymentId) | ToGateway(url: string) | BackToPaymentPage(booking: BookingId)

  /** The payment page's answer: a rendered page (or its refusal), or a redirect after an attempt. */
  datatype Response = Render(page: Page<Summary>) | Redirect(next: NextStep)

  class PaymentLedger {
    /** The bookings the payments refer to; nothing here changes them. */
    const bookings: map<BookingId, Booking>
    /** The payment table, keyed by the database id. */
    var payments: map<PaymentId, Payment>
    /** The id the database gives the next inserted row. */
    var nextId: PaymentId

    ghost predicate Valid()
      reads this
    {
      && 1 <= nextId
      && (forall id | id in payments :: id < nextId && payments[id].booking in bookings)
      && AllCaptureConsistent(payments)
    }

    constructor (bookings: map<BookingId, Booking>)
      ensures Valid()
      ensures this.bookings == bookings && payments == map[] && nextId == 1
    {
      this.bookings := bookings;
      payments := map[];
      nextId := 1;
    }

    /** Inserts a row under a fresh id. */
    method Insert(p: Payment) returns (id: PaymentId)
      requires forall k | k in payments :: k < nextId
      modifies this
      ensures id == old(nextId) && id !in old(payments)
      ensures payments == old(payments)[id := p] && nextId == id + 1
    {
      id := nextId;
      payments := payments[id := p];
      nextId := nextId + 1;
    }

    /** Writes back a row that is already in the table. */
    method Save(id: PaymentId, p: Payment)
      requires id in payments
      modifies this`payments
      ensures payments == old(payments)[id := p]
    {
      payments := payments[id := p];
    }

    /**
     * Records a payment attempt for a booking. Test mode writes a row that is
     * already succeeded and captured and sends the user to its success page.
     * Live mode writes a pending row, sends the gateway a create request, and
     * if the gateway returns stores its id and sends the user to the gateway;
     * if the gateway raises the pending row stays and the user goes back to
     * the booking's payment page. Exactly one row is added either way.
     */
    method CreateYookassaPayment(bookingId: BookingId, choice: string, s: Settings,
                                 uuid: string, now: Instant, gateway: GatewayReply)
      returns (next: NextStep, sent: Option<GatewayRequest>)
      requires Valid() && bookingId in bookings
      modifies this
      ensures Valid()
      ensures old(nextId) !in old(payments) && nextId == old(nextId) + 1
      ensures payments == old(payments)[old(nextId) := Created(bookingId, bookings[bookingId], choice, s, uuid, now, gateway)]
      ensures s.debug ==> next == ToSuccessPage(old(nextId)) && sent == None
      ensures !s.debug ==> sent == Some(LiveRequest(old(nextId), bookingId, bookings[bookingId], choice, s, uuid))
      ensures !s.debug && gateway.Registered? ==> next == ToGateway(gateway.confirmationUrl)
      ensures !s.debug && gateway.Raised? ==> next == BackToPaymentPage(bookingId)
    {
      var booking := bookings[bookingId];
      var id := Insert(Inserted(bookingId, booking, choice, s, uuid));
      if s.debug {
        Save(id, payments[id].(capturedAt := Some(now)));
        next, sent := ToSuccessPage(id), None;
      } else {
        sent := Some(LiveRequest(id, bookingId, booking, choice, s, uuid));
        match gateway
        case Registered(gid, url) =>
          Save(id, payments[id].(gatewayId := Some(gid)));
          next := ToGateway(url);
        case Raised =>
          next := BackToPaymentPage(bookingId);
      }
    }

    /**
     * The payment page: it is rendered (or refused) unless the owner submits a
     * valid method choice, in which case one payment attempt is recorded.
     * `choice` is None for a plain visit or an invalid form.
     */
    method PaymentView(bookingId: BookingId, viewer: Viewer, choice: Option<string>, s: Settings,
                       uuid: string, now: Instant, gateway: GatewayReply)
      returns (r: Response, sent: Option<GatewayRequest>)
      requires Valid()
      modifies this
      ensures Valid()
      ensures var page := PaymentPage(bookings, bookingId, viewer, s);
              if page.Shown? && choice.Some? then
                && r.Redirect?
                && (s.debug ==> r.next == ToSuccessPage(old(nextId)))
                && (!s.debug && gateway.Registered? ==> r.next == ToGateway(gateway.confirmationUrl))
                && (!s.debug && gateway.Raised? ==> r.next == BackToPaymentPage(bookingId))
                && payments == old(payments)[old(nextId) := Created(bookingId, bookings[bookingId], choice.value, s, uuid, now, gateway)]
                && old(nextId) !in old(payments) && nextId == old(nextId) + 1
                && sent == (if s.debug then None
                            else Some(LiveRequest(old(nextId), bookingId, bookings[bookingId], choice.value, s, uuid)))
              else
                r == Render(page) && sent == None && payments == old(payments) && nextId == old(nextId)
    {
      var page := PaymentPage(bookings, bookingId, viewer, s);
      if page.Shown? && choice.Some? {
        var next;
        next, sent := CreateYookassaPayment(bookingId, choice.value, s, uuid, now, gateway);
        r := Redirect(next);
      } else {
        r, sent := Render(page), None;
      }
    }

    /** The success page of a payment, shown to the booking's owner only. */
    method PaymentSuccessView(paymentId: PaymentId, viewer: Viewer) returns (r: Page<Payment>)
      requires Valid()
      ensures r == SuccessPage(payments, bookings, paymentId, viewer)
    {
      r := SuccessPage(payments, bookings, paymentId, viewer);
    }

    /**
     * The gateway's notification endpoint: refuses anything but a POST from a
     * trusted address, acknowledges an unknown gateway id, and otherwise
     * overwrites the matching row's status, stamping it when it succeeded.
     */
    method HandleWebhook(req: WebhookRequest, now: Instant) returns (reply: Reply)
      requires Valid()
      modifies this`payments
      ensures Valid()
      ensures Handled(reply, payments) == Webhook(old(payments), req, now)
    {
      WebhookKeepsCaptureConsistent(payments, req, now);
      if req.httpMethod != "POST" {
        return InvalidMethod;
      }
      if !req.trustedSource {
        return InvalidIp;
      }
      match req.body
      case Undecodable =>
        return ServerError;
      case Event(objectId, objectStatus) =>
        if objectId.None? {
          return ServerError;
        }
        var ids := set id | id in payments && payments[id].gatewayId == Some(objectId.value);
        if |ids| == 0 {
          return Acknowledged;
        }
        if |ids| > 1 {
          return ServerError;
        }
        var id :| id in ids;
        SingletonOf(ids, id);
        if objectStatus.None? {
          return ServerError;
        }
        var p := payments[id].(status := objectStatus.value);
        if objectStatus.value == Succeeded {
          p := p.(capturedAt := Some(now));
        }
        Save(id, p);
        return Acknowledged;
    }
  }

  /**
   * Live mode, the gateway raises on the first click and returns on the
   * second: the first pending row stays without a gateway id, and the retry
   * adds a second, separate row that carries the gateway's id.
   */
  method RetryAfterGatewayFailure() returns (first: Payment, second: Payment, count: nat)
    ensures first.status == Pending && first.gatewayId == None && first.capturedAt == None
    ensures second.status == Pending && second.gatewayId == Some("gw-2")
    ensures first.amount == second.amount == 4500.0
    ensures count == 2
  {
    var live := Settings(false, None, None);
    var ledger := new PaymentLedger(map[5 := Booking(1, 15000.0)]);
    var r, sent := ledger.PaymentView(5, SignedIn(1), Some("prepayment"), live, "key-1", 100, Raised);
    assert r == Redirect(BackToPaymentPage(5));
    r, sent := ledger.PaymentView(5, SignedIn(1), Some("prepayment"), live, "key-2", 101, Registered("gw-2", "https://pay"));
    assert r == Redirect(ToGateway("https://pay"));
    assert ledger.payments.Keys == {1, 2};
    first, second := ledger.payments[1], ledger.payments[2];
    count := |ledger.payments|;
  }
}
