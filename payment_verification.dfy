/** The `verify-razorpay-payment` edge function: the server-side sequence that turns a
    paid Razorpay order into a confirmed appointment and a payment record. Every step
    that talks to the outside world is an input: the user the auth service resolves
    from the bearer token, the configured secret, HMAC-SHA256 (section 2 of RFC 2104),
    the reply of the `get_next_token_number` procedure and the replies to the inserts. */
module PaymentVerification {
  import opened Wrappers
  import opened Strings
  import opened Hex
  import opened Store
  import SendNotification

  /** The `appointmentData` object of the request body. */
  datatype BookingInput = BookingInput(
    doctorId: string,
    hospitalId: string,
    date: string,
    time: string,
    apptType: string,
    specialInstructions: Option<string>,
    consultationFee: Option<int>)

  datatype VerifyRequest = VerifyRequest(
    httpMethod: string,
    authorization: Option<string>,
    orderId: string,
    paymentId: string,
    signature: Option<string>,
    booking: BookingInput)

  /** The reply of `get_next_token_number`: its data (possibly null) or an error. */
  datatype TokenReply = TokenData(data: Option<int>) | TokenFailed(error: Thrown)

  /** The HTTP reply. The handler answers every failure with status 500. */
  datatype Reply =
    | Preflight
    | Success(appointment: Appointment, paymentId: string)
    | Failure(httpStatus: int, message: string)

  /** The body of the `send-notification` invocation made after a booking. */
  datatype Notice = Notice(userId: string, kind: string, appointmentId: string)

  /** The JSON body of the `send-notification` invocation as the handler writes it: the
      keys are `userId`, `type` and `appointmentId`. */
  function NoticeBodyAsWritten(n: Notice): (body: map<string, string>)
    ensures body.Keys == {"userId", "type", "appointmentId"}
  {
    map["userId" := n.userId, "type" := n.kind, "appointmentId" := n.appointmentId]
  }

  /** The receiving handler reads `user_id`, finds none, and so refuses the call with 403
      for every authenticated user: the confirmation is never delivered. */
  lemma NoticeRefusedAsWritten(n: Notice, authorization: Option<string>)
    requires Truthy(authorization)
    ensures SendNotification.RequestUserId(NoticeBodyAsWritten(n)) == None
    ensures SendNotification.Authorize(false, authorization, Some(n.userId), SendNotification.RequestUserId(NoticeBodyAsWritten(n)))
      == SendNotification.Rejected(403, "You can only send notifications for your own account")
  {
  }

  /** The body with the keys the receiving handler reads. */
  function NoticeBody(n: Notice): (body: map<string, string>)
    ensures SendNotification.RequestUserId(body) == Some(n.userId)
    ensures "type" in body && "appointment_id" in body
    ensures body["type"] == n.kind && body["appointment_id"] == n.appointmentId
  {
    map["user_id" := n.userId, "type" := n.kind, "appointment_id" := n.appointmentId]
  }

  /** With those keys, the call made with the booking user's token is let through. */
  lemma NoticeAccepted(n: Notice, authorization: Option<string>)
    requires Truthy(authorization)
    ensures SendNotification.Authorize(false, authorization, Some(n.userId), SendNotification.RequestUserId(NoticeBody(n))) == SendNotification.UserCall
  {
  }

  /** The text that is signed: the order id and the payment id joined by a bar. */
  function SignedMessage(orderId: string, paymentId: string): string {
    orderId + "|" + paymentId
  }

  /** The first bar of the signed text is the one after the order id. */
  lemma FirstBar(o: string, p: string)
    requires '|' !in o
    ensures |SignedMessage(o, p)| > |o| && SignedMessage(o, p)[|o|] == '|'
    ensures forall k :: 0 <= k < |o| ==> SignedMessage(o, p)[k] != '|'
  {
    var m := SignedMessage(o, p);
    forall k | 0 <= k < |o| ensures m[k] != '|' {
      assert m[k] == o[k];
    }
  }

  /** Neither order id contains the separator, so the signed text determines both ids. */
  lemma SignedMessageInjective(o1: string, p1: string, o2: string, p2: string)
    requires '|' !in o1 && '|' !in o2
    requires SignedMessage(o1, p1) == SignedMessage(o2, p2)
    ensures o1 == o2 && p1 == p2
  {
    var m := SignedMessage(o1, p1);
    FirstBar(o1, p1);
    FirstBar(o2, p2);
    assert m[|o1|] == '|' && m[|o2|] == '|';
    assert |o1| == |o2|;
    assert o1 == m[..|o1|] == o2;
    assert p1 == m[|o1| + 1..] == p2;
  }

  /** The signature the server expects: the HMAC digest of the signed text under the
      secret, written as lower-case hexadecimal, two digits per digest byte. */
  function ExpectedSignature(hmac: (string, string) -> seq<byte>, secret: string, orderId: string, paymentId: string): (sig: string)
    ensures |sig| == 2 * |hmac(secret, SignedMessage(orderId, paymentId))|
    ensures IsLowerHex(sig)
    ensures HexDecode(sig) == Some(hmac(secret, SignedMessage(orderId, paymentId)))
  {
    var digest := hmac(secret, SignedMessage(orderId, paymentId));
    HexEncodeLength(digest);
    HexRoundTrip(digest);
    HexEncode(digest)
  }

  /** The supplied signature matches the expected one exactly (`!==` on strings); a
      missing signature never matches. */
  predicate SignatureMatches(hmac: (string, string) -> seq<byte>, secret: string, req: VerifyRequest) {
    req.signature == Some(ExpectedSignature(hmac, secret, req.orderId, req.paymentId))
  }

  /** A signature that matches carries the digest it was computed from. */
  lemma MatchingSignatureIsDigest(hmac: (string, string) -> seq<byte>, secret: string, req: VerifyRequest)
    requires SignatureMatches(hmac, secret, req)
    ensures HexDecode(req.signature.value) == Some(hmac(secret, SignedMessage(req.orderId, req.paymentId)))
  {
  }

  /** A missing signature, or one that is not lower-case hexadecimal, is always rejected. */
  lemma MalformedSignatureRejected(hmac: (string, string) -> seq<byte>, secret: string, req: VerifyRequest)
    requires req.signature.None? || !IsLowerHex(req.signature.value)
    ensures !SignatureMatches(hmac, secret, req)
  {
  }

  /** The stored token: the procedure's number, or 1 when it returned null or 0. */
  function TokenOrOne(data: Option<int>): (t: int)
    ensures t != 0
    ensures t == 1 || data == Some(t)
    ensures TruthyInt(data) ==> t == data.value
  {
    IntOr(data, 1)
  }

  /** The appointment row the handler inserts for `user`. */
  function ConfirmedRow(id: string, user: string, b: BookingInput, token: int): (a: Appointment)
    ensures a.id == id && a.userId == user && a.status == Confirmed && a.tokenNumber == Some(token)
    ensures a.doctorId == b.doctorId && a.hospitalId == b.hospitalId && a.date == b.date
    ensures a.time == b.time && a.apptType == b.apptType && a.specialInstructions == b.specialInstructions
  {
    Appointment(id, user, b.doctorId, b.hospitalId, b.date, b.time, b.apptType, Confirmed,
      Some(token), None, b.specialInstructions, None, None)
  }

  /** The payment row recorded for appointment `apptId`. */
  function CompletedPayment(id: string, user: string, apptId: string, req: VerifyRequest): (p: Payment)
    ensures p.userId == user && p.appointmentId == apptId
    ensures p.amount == IntOr(req.booking.consultationFee, 0)
    ensures p.currency == "INR" && p.status == "completed" && p.paymentMethod == Some("razorpay")
    ensures p.orderId == req.orderId && p.gatewayPaymentId == Some(req.paymentId) && p.signature == req.signature
  {
    Payment(id, user, apptId, IntOr(req.booking.consultationFee, 0), "INR", req.orderId,
      Some(req.paymentId), req.signature, "completed", Some("razorpay"))
  }

  /** The request is not a preflight, carries an Authorization header and the auth
      service resolved a user from it. */
  predicate Authenticated(req: VerifyRequest, authUser: Option<string>) {
    req.httpMethod != "OPTIONS" && Truthy(req.authorization) && authUser.Some?
  }

  /** The handler, step by step. A failure at any step before the appointment insert
      leaves both tables as they were; after it, a failed payment insert is ignored. */
  method VerifyPayment(
    db: Database, req: VerifyRequest, authUser: Option<string>, secret: Option<string>,
    hmac: (string, string) -> seq<byte>, token: TokenReply, apptInsert: InsertReply, paymentInsert: InsertReply)
    returns (reply: Reply, notice: Option<Notice>)
    requires db.Valid()
    requires apptInsert.Inserted? ==> apptInsert.newId !in db.appointments
    modifies db`appointments, db`payments
    ensures db.Valid()
    ensures req.httpMethod == "OPTIONS" ==> reply == Preflight
    ensures !reply.Success? ==> db.appointments == old(db.appointments) && db.payments == old(db.payments) && notice == None
    ensures reply.Failure? ==> reply.httpStatus == 500
    ensures req.httpMethod != "OPTIONS" && !Truthy(req.authorization) ==>
      reply == Failure(500, "Missing authorization header")
    ensures req.httpMethod != "OPTIONS" && Truthy(req.authorization) && authUser.None? ==>
      reply == Failure(500, "Unauthorized")
    ensures Authenticated(req, authUser) && !Truthy(secret) ==>
      reply == Failure(500, "Razorpay secret not configured")
    ensures Authenticated(req, authUser) && Truthy(secret) && !SignatureMatches(hmac, secret.value, req) ==>
      reply == Failure(500, "Payment verification failed")
    ensures reply.Success? ==>
      && Authenticated(req, authUser) && Truthy(secret) && SignatureMatches(hmac, secret.value, req)
      && token.TokenData? && apptInsert.Inserted?
      && reply.appointment == ConfirmedRow(apptInsert.newId, authUser.value, req.booking, TokenOrOne(token.data))
      && reply.paymentId == req.paymentId
      && db.appointments == old(db.appointments)[apptInsert.newId := reply.appointment]
      && db.payments == old(db.payments) +
           (if paymentInsert.Inserted?
            then [CompletedPayment(paymentInsert.newId, authUser.value, apptInsert.newId, req)] else [])
      && notice == Some(Notice(authUser.value, "appointment_confirmation", apptInsert.newId))
    ensures Authenticated(req, authUser) && Truthy(secret) && SignatureMatches(hmac, secret.value, req) ==>
      match token
      case TokenFailed(e) => reply == Failure(500, ThrownMessage(e))
      case TokenData(_) =>
        match apptInsert
        case InsertFailed(e) => reply == Failure(500, ThrownMessage(e))
        case Inserted(_) => reply.Success?
  {
    notice := None;
    if req.httpMethod == "OPTIONS" {
      return Preflight, notice;
    }
    if !Truthy(req.authorization) {
      return Failure(500, "Missing authorization header"), notice;
    }
    if authUser.None? {
      return Failure(500, "Unauthorized"), notice;
    }
    var user := authUser.value;
    if !Truthy(secret) {
      return Failure(500, "Razorpay secret not configured"), notice;
    }
    var expected := ExpectedSignature(hmac, secret.value, req.orderId, req.paymentId);
    if req.signature != Some(expected) {
      return Failure(500, "Payment verification failed"), notice;
    }
    if token.TokenFailed? {
      return Failure(500, ThrownMessage(token.error)), notice;
    }
    var tokenNumber := TokenOrOne(token.data);
    if apptInsert.InsertFailed? {
      return Failure(500, ThrownMessage(apptInsert.error)), notice;
    }
    var appointment := ConfirmedRow(apptInsert.newId, user, req.booking, tokenNumber);
    db.appointments := db.appointments[appointment.id := appointment];
    if paymentInsert.Inserted? {
      db.payments := db.payments + [CompletedPayment(paymentInsert.newId, user, appointment.id, req)];
    }
    notice := Some(Notice(user, "appointment_confirmation", appointment.id));
    reply := Success(appointment, req.paymentId);
  }
}
