/**
 * Payment records, the record each creation path writes, and the webhook
 * through which the payment gateway reports a payment's new status.
 */
module Payments {
  import opened Common
  import opened PaymentAmounts

  /** The part of a booking the payment flow reads. */
  datatype Booking = Booking(owner: UserId, totalCost: Money)

  const Succeeded := "succeeded"
  const Pending := "pending"

  /** Gateway ids of simulated payments start with this. */
  const TestIdPrefix := "test_"

  /** One row of the payment table. */
  datatype Payment = Payment(
    booking: BookingId,
    amount: Money,
    kind: PaymentKind,
    status: string,
    gatewayId: Option<string>,
    capturedAt: Option<Instant>)

  /** A succeeded payment carries the time it was captured. */
  predicate CaptureConsistent(p: Payment) {
    p.status == Succeeded ==> p.capturedAt.Some?
  }

  predicate AllCaptureConsistent(payments: map<PaymentId, Payment>) {
    forall id | id in payments :: CaptureConsistent(payments[id])
  }

  /** `q` differs from `p` at most in the two fields the webhook writes. */
  predicate SameApartFromStatus(p: Payment, q: Payment) {
    p.booking == q.booking && p.amount == q.amount && p.kind == q.kind && p.gatewayId == q.gatewayId
  }

  // ---------------------------------------------------------------------------
  // Creation

  /** What the gateway's create call does: return a payment, or raise. */
  datatype GatewayReply = Registered(id: string, confirmationUrl: string) | Raised

  /** The metadata attached to a gateway payment. */
  datatype Metadata = Metadata(booking: BookingId, payment: PaymentId, kind: PaymentKind)

  /** The create-payment request sent to the gateway in live mode. */
  datatype GatewayRequest = GatewayRequest(
    amount: Money,
    currency: string,
    returnToPayment: PaymentId,
    capture: bool,
    metadata: Metadata,
    idempotenceKey: string)

  const Currency := "RUB"

  /**
   * The record as first inserted, before any later field update: nothing is
   * captured yet; test mode already says succeeded and carries its "test_" id,
   * live mode is pending with no gateway id.
   */
  function Inserted(bookingId: BookingId, booking: Booking, choice: string, s: Settings, uuid: string): (p: Payment)
    ensures p.booking == bookingId && p.kind == KindFor(choice) && p.amount == AmountDue(booking.totalCost, choice, s)
    ensures p.capturedAt == None
    ensures s.debug ==> p.status == Succeeded && p.gatewayId == Some(TestIdPrefix + uuid)
    ensures !s.debug ==> p.status == Pending && p.gatewayId == None
  {
    var amount := AmountDue(booking.totalCost, choice, s);
    if s.debug then Payment(bookingId, amount, KindFor(choice), Succeeded, Some(TestIdPrefix + uuid), None)
    else Payment(bookingId, amount, KindFor(choice), Pending, None, None)
  }

  /**
   * The record a payment attempt leaves behind: in test mode stamped with the
   * capture time; in live mode given the gateway's id only if the gateway call returned.
   */
  function Created(bookingId: BookingId, booking: Booking, choice: string, s: Settings,
                   uuid: string, now: Instant, gateway: GatewayReply): (p: Payment)
    ensures p.booking == bookingId && p.kind == KindFor(choice) && p.amount == AmountDue(booking.totalCost, choice, s)
    ensures p.status == Inserted(bookingId, booking, choice, s, uuid).status
    ensures CaptureConsistent(p)
    ensures p.capturedAt.Some? <==> s.debug
  {
    var p := Inserted(bookingId, booking, choice, s, uuid);
    if s.debug then p.(capturedAt := Some(now))
    else if gateway.Registered? then p.(gatewayId := Some(gateway.id))
    else p
  }

  /**
   * The gateway request for the row `id`: it asks for the row's amount in
   * roubles with immediate capture, returns the user to that row's success
   * page and tags the gateway payment with the booking, the row and its kind.
   */
  function LiveRequest(id: PaymentId, bookingId: BookingId, booking: Booking, choice: string,
                       s: Settings, uuid: string): (r: GatewayRequest)
    ensures r.amount == Inserted(bookingId, booking, choice, s, uuid).amount
    ensures r.metadata.kind == Inserted(bookingId, booking, choice, s, uuid).kind
    ensures r.returnToPayment == r.metadata.payment == id && r.metadata.booking == bookingId
    ensures r.currency == Currency && r.capture && r.idempotenceKey == uuid
  {
    GatewayRequest(AmountDue(booking.totalCost, choice, s), Currency, id, true,
                   Metadata(bookingId, id, KindFor(choice)), uuid)
  }

  /** Test mode: the record is already succeeded, captured now, with a "test_" gateway id. */
  lemma TestModeRecord(bookingId: BookingId, booking: Booking, choice: string, s: Settings,
                       uuid: string, now: Instant, gateway: GatewayReply)
    requires s.debug
    ensures var p := Created(bookingId, booking, choice, s, uuid, now, gateway);
            && p.status == Succeeded && p.capturedAt == Some(now)
            && p.gatewayId.Some? && |p.gatewayId.value| == |TestIdPrefix| + |uuid|
            && p.gatewayId.value[..|TestIdPrefix|] == TestIdPrefix
            && p.gatewayId.value[|TestIdPrefix|..] == uuid
  {
    var g := TestIdPrefix + uuid;
    assert g[..|TestIdPrefix|] == TestIdPrefix;
    assert g[|TestIdPrefix|..] == uuid;
  }

  /**
   * Live mode: the record stays pending and uncaptured; it carries a gateway
   * id exactly when the gateway call returned, and then the gateway's own id.
   */
  lemma LiveModeRecord(bookingId: BookingId, booking: Booking, choice: string, s: Settings,
                       uuid: string, now: Instant, gateway: GatewayReply)
    requires !s.debug
    ensures var p := Created(bookingId, booking, choice, s, uuid, now, gateway);
            && p.status == Pending && p.capturedAt == None
            && (p.gatewayId.Some? <==> gateway.Registered?)
            && (gateway.Registered? ==> p.gatewayId == Some(gateway.id))
  {
  }

  /**
   * Either way the record belongs to the booking, asks for the amount the
   * method calls for, and is consistent about capture.
   */
  lemma CreatedRecordFacts(bookingId: BookingId, booking: Booking, choice: string, s: Settings,
                           uuid: string, now: Instant, gateway: GatewayReply)
    requires 0.0 <= booking.totalCost && 0 <= PrepaymentPercent(s) <= 100
    ensures var p := Created(bookingId, booking, choice, s, uuid, now, gateway);
            && p.booking == bookingId && p.kind == KindFor(choice)
            && p.amount == AmountDue(booking.totalCost, choice, s)
            && 0.0 <= p.amount <= booking.totalCost
            && CaptureConsistent(p)
  {
    AmountDueWithinTotal(booking.totalCost, choice, s);
  }

  // ---------------------------------------------------------------------------
  // Webhook

  /** The request body after JSON decoding: undecodable, or a payment object whose fields may be missing. */
  datatype Notification = Undecodable | Event(objectId: Option<string>, objectStatus: Option<string>)

  datatype WebhookRequest = WebhookRequest(httpMethod: string, trustedSource: bool, body: Notification)

  /** A JSON acknowledgement with its HTTP status, or an exception the handler lets escape. */
  datatype Reply = Json(code: int, status: string) | ServerError

  const Acknowledged := Json(200, "success")
  const InvalidIp := Json(400, "invalid ip")
  const InvalidMethod := Json(400, "invalid method")

  datatype Handled = Handled(reply: Reply, payments: map<PaymentId, Payment>)

  /** The rows whose gateway id is `gid`. */
  function Matching(payments: map<PaymentId, Payment>, gid: string): set<PaymentId> {
    set id | id in payments && payments[id].gatewayId == Some(gid)
  }

  /**
   * A row after the gateway reported `status` at time `now`: the status is
   * overwritten, a success is stamped with `now`, any other status keeps the
   * old capture time, and nothing else about the row changes.
   */
  function Reported(p: Payment, status: string, now: Instant): (q: Payment)
    ensures q.status == status && SameApartFromStatus(p, q)
    ensures status == Succeeded ==> q.capturedAt == Some(now)
    ensures status != Succeeded ==> q.capturedAt == p.capturedAt
    ensures CaptureConsistent(q)
  {
    p.(status := status, capturedAt := if status == Succeeded then Some(now) else p.capturedAt)
  }

  /** A one-element set is the set of any of its elements. */
  lemma SingletonOf(s: set<PaymentId>, x: PaymentId)
    requires |s| == 1 && x in s
    ensures s == {x}
  {
    assert |s - {x}| == 0;
  }

  /**
   * What the webhook replies and what the table holds afterwards. A lookup
   * that finds several rows, a missing field or an undecodable body raises an
   * exception the handler does not catch, before anything is saved.
   */
  ghost function Webhook(payments: map<PaymentId, Payment>, req: WebhookRequest, now: Instant): (h: Handled)
    ensures req.httpMethod != "POST" ==> h == Handled(InvalidMethod, payments)
    ensures req.httpMethod == "POST" && !req.trustedSource ==> h == Handled(InvalidIp, payments)
    ensures h.payments.Keys == payments.Keys
    ensures h.reply != Acknowledged ==> h.payments == payments
    ensures req.body.Event? && req.body.objectId.Some? && Matching(payments, req.body.objectId.value) == {}
            && req.httpMethod == "POST" && req.trustedSource
            ==> h == Handled(Acknowledged, payments)
  {
    if req.httpMethod != "POST" then Handled(InvalidMethod, payments)
    else if !req.trustedSource then Handled(InvalidIp, payments)
    else match req.body
      case Undecodable => Handled(ServerError, payments)
      case Event(objectId, objectStatus) =>
        if objectId.None? then Handled(ServerError, payments)
        else
          var ids := Matching(payments, objectId.value);
          if |ids| == 0 then Handled(Acknowledged, payments)
          else if |ids| > 1 || objectStatus.None? then Handled(ServerError, payments)
          else
            var id :| id in ids;
            Handled(Acknowledged, payments[id := Reported(payments[id], objectStatus.value, now)])
  }

  /** A trusted POST naming the gateway id `gid` and reporting `status`. */
  function Callback(gid: string, status: string): WebhookRequest {
    WebhookRequest("POST", true, Event(Some(gid), Some(status)))
  }

  /**
   * For a gateway id that exactly one row carries, the webhook acknowledges,
   * overwrites that row's status, stamps it when the status is "succeeded"
   * and otherwise keeps its capture time; every other row is untouched.
   */
  lemma KnownIdUpdatesThatRow(payments: map<PaymentId, Payment>, id: PaymentId, status: string, now: Instant)
    requires id in payments && payments[id].gatewayId.Some?
    requires Matching(payments, payments[id].gatewayId.value) == {id}
    ensures var h := Webhook(payments, Callback(payments[id].gatewayId.value, status), now);
            && h.reply == Acknowledged
            && h.payments[id].status == status
            && h.payments[id].capturedAt == (if status == Succeeded then Some(now) else payments[id].capturedAt)
            && SameApartFromStatus(payments[id], h.payments[id])
            && (forall other | other in payments && other != id :: h.payments[other] == payments[other])
  {
    var gid := payments[id].gatewayId.value;
    var ids := Matching(payments, gid);
    assert |ids| == 1;
    var h := Webhook(payments, Callback(gid, status), now);
    assert h.payments == payments[id := Reported(payments[id], status, now)];
  }

  /** In every case the webhook changes at most the status and capture time of existing rows. */
  lemma WebhookOnlyTouchesStatus(payments: map<PaymentId, Payment>, req: WebhookRequest, now: Instant)
    ensures var h := Webhook(payments, req, now);
            forall id | id in payments :: SameApartFromStatus(payments[id], h.payments[id])
  {
  }

  /** The webhook keeps every succeeded row captured. */
  lemma WebhookKeepsCaptureConsistent(payments: map<PaymentId, Payment>, req: WebhookRequest, now: Instant)
    requires AllCaptureConsistent(payments)
    ensures AllCaptureConsistent(Webhook(payments, req, now).payments)
  {
    var h := Webhook(payments, req, now);
    if h.payments != payments {
      var gid := req.body.objectId.value;
      var id :| id in Matching(payments, gid);
      SingletonOf(Matching(payments, gid), id);
      assert h.payments == payments[id := Reported(payments[id], req.body.objectStatus.value, now)];
    }
  }

  /** A notification whose effect is an update of one row: it names a gateway id one row carries. */
  lemma UpdateIsFromSoleMatch(payments: map<PaymentId, Payment>, req: WebhookRequest, now: Instant)
    requires Webhook(payments, req, now).payments != payments
    ensures req.httpMethod == "POST" && req.trustedSource
    ensures req.body.Event? && req.body.objectId.Some? && req.body.objectStatus.Some?
    ensures |Matching(payments, req.body.objectId.value)| == 1
  {
  }

  /**
   * The failures the handler does not catch: an undecodable body, an object
   * without an id, several rows carrying the id, or a sole match whose object
   * has no status. Each ends in a server error with the table unchanged. An
   * unknown id without a status is still acknowledged, since the lookup fails
   * before the status is read.
   */
  lemma WebhookUncaughtFailures(payments: map<PaymentId, Payment>, body: Notification, now: Instant)
    ensures body.Undecodable? ==> Webhook(payments, WebhookRequest("POST", true, body), now) == Handled(ServerError, payments)
    ensures body.Event? && body.objectId == None ==>
              Webhook(payments, WebhookRequest("POST", true, body), now) == Handled(ServerError, payments)
    ensures forall gid | body.Event? && body.objectId == Some(gid) && |Matching(payments, gid)| > 1 ::
              Webhook(payments, WebhookRequest("POST", true, body), now) == Handled(ServerError, payments)
    ensures forall gid | body == Event(Some(gid), None) && |Matching(payments, gid)| == 1 ::
              Webhook(payments, WebhookRequest("POST", true, body), now) == Handled(ServerError, payments)
    ensures forall gid | body.Event? && body.objectId == Some(gid) && Matching(payments, gid) == {} ::
              Webhook(payments, WebhookRequest("POST", true, body), now) == Handled(Acknowledged, payments)
  {
  }

  /** A callback delivered twice at the same moment leaves the table as one delivery does. */
  lemma DuplicateCallbackIdempotent(payments: map<PaymentId, Payment>, req: WebhookRequest, now: Instant)
    ensures var once := Webhook(payments, req, now);
            Webhook(once.payments, req, now) == once
  {
    var once := Webhook(payments, req, now);
    if once.payments != payments {
      var gid, status := req.body.objectId.value, req.body.objectStatus.value;
      var id :| id in Matching(payments, gid);
      SingletonOf(Matching(payments, gid), id);
      assert once.payments == payments[id := Reported(payments[id], status, now)];
      assert Matching(once.payments, gid) == {id};
      var twice := Webhook(once.payments, req, now);
      assert twice.payments == once.payments[id := Reported(once.payments[id], status, now)];
    }
  }

  /**
   * A second "succeeded" callback for the same payment, later, re-stamps the
   * capture time: the handler keeps no earlier stamp.
   */
  lemma RepeatedSuccessRestamps(payments: map<PaymentId, Payment>, id: PaymentId, first: Instant, second: Instant)
    requires id in payments && payments[id].gatewayId.Some?
    requires Matching(payments, payments[id].gatewayId.value) == {id}
    ensures var cb := Callback(payments[id].gatewayId.value, Succeeded);
            var after := Webhook(Webhook(payments, cb, first).payments, cb, second).payments;
            after[id].status == Succeeded && after[id].capturedAt == Some(second)
  {
    var gid := payments[id].gatewayId.value;
    KnownIdUpdatesThatRow(payments, id, Succeeded, first);
    var once := Webhook(payments, Callback(gid, Succeeded), first).payments;
    assert Matching(once, gid) == {id};
    KnownIdUpdatesThatRow(once, id, Succeeded, second);
  }

  /**
   * A non-success status reported after a success keeps the capture time, so a
   * captured row need not be succeeded.
   */
  lemma LaterStatusKeepsCaptureTime(payments: map<PaymentId, Payment>, id: PaymentId, status: string,
                                    first: Instant, second: Instant)
    requires id in payments && payments[id].gatewayId.Some?
    requires Matching(payments, payments[id].gatewayId.value) == {id}
    requires status != Succeeded
    ensures var gid := payments[id].gatewayId.value;
            var once := Webhook(payments, Callback(gid, Succeeded), first).payments;
            var after := Webhook(once, Callback(gid, status), second).payments;
            after[id].status == status && after[id].capturedAt == Some(first)
  {
    var gid := payments[id].gatewayId.value;
    KnownIdUpdatesThatRow(payments, id, Succeeded, first);
    var once := Webhook(payments, Callback(gid, Succeeded), first).payments;
    assert Matching(once, gid) == {id};
    KnownIdUpdatesThatRow(once, id, status, second);
  }

  /** The table after the webhook has handled each request of `events` in turn. */
  ghost function Replay(payments: map<PaymentId, Payment>, events: seq<(WebhookRequest, Instant)>): map<PaymentId, Payment>
    decreases |events|
  {
    if events == [] then payments
    else Replay(Webhook(payments, events[0].0, events[0].1).payments, events[1..])
  }

  /**
   * However many notifications arrive, in whatever order: no row is added or
   * removed, only status and capture time change, and succeeded rows stay captured.
   */
  lemma {:induction false} ReplayPreservesLedger(payments: map<PaymentId, Payment>, events: seq<(WebhookRequest, Instant)>)
    requires AllCaptureConsistent(payments)
    ensures var after := Replay(payments, events);
            && after.Keys == payments.Keys
            && (forall id | id in payments :: SameApartFromStatus(payments[id], after[id]))
            && AllCaptureConsistent(after)
    decreases |events|
  {
    if events != [] {
      var next := Webhook(payments, events[0].0, events[0].1).payments;
      WebhookOnlyTouchesStatus(payments, events[0].0, events[0].1);
      WebhookKeepsCaptureConsistent(payments, events[0].0, events[0].1);
      ReplayPreservesLedger(next, events[1..]);
    }
  }
}
