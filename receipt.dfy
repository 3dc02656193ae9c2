/** The payment receipt (`ReceiptModal`): the receipt's values are escaped once, up
    front, and the printable page is built from them. Date formatting and
    `toFixed(2)` are inputs; the page's style sheet is not reproduced. */
module Receipt {
  import opened Wrappers
  import opened Strings
  import opened HtmlEscape
  import opened Store
  import opened Payments

  /** `safeString(value, fallback)`: the escaped value, or the escaped fallback when the
      value is `null`, `undefined` or empty. */
  function SafeString(value: Option<string>, fallback: string): (r: string)
    ensures Truthy(value) ==> r == EscapeHtml(value.value)
    ensures !Truthy(value) ==> r == EscapeHtml(fallback)
    ensures NoMarkup(r)
  {
    EscapeHasNoMarkup(StringOr(value, fallback));
    EscapeHtml(StringOr(value, fallback))
  }

  /** The escaped values the page shows. */
  datatype SafeValues = SafeValues(
    transactionId: string,
    date: string,
    paymentMethod: string,
    doctorName: string,
    specialization: string,
    hospitalName: string,
    appointmentDate: string,
    tokenNumber: string,
    amount: string)

  /** `payment.razorpay_payment_id || payment.id.slice(0, 8)`. */
  function TransactionId(p: Payment): (r: string)
    ensures Truthy(p.gatewayPaymentId) ==> r == p.gatewayPaymentId.value
    ensures !Truthy(p.gatewayPaymentId) ==> r == Take(p.id, 8)
  {
    StringOr(p.gatewayPaymentId, Take(p.id, 8))
  }

  /** The `safeValues` object. `createdText` and `amountText` are the formatted creation
      time and `amount.toFixed(2)`; `formatDay` formats the appointment date. */
  function BuildSafeValues(e: EnrichedPayment, createdText: string, amountText: string, formatDay: string -> string): (v: SafeValues)
    ensures v.transactionId == SafeString(Some(TransactionId(e.payment)), "N/A")
    ensures v.date == EscapeHtml(createdText) && v.amount == EscapeHtml(amountText)
    ensures v.paymentMethod == SafeString(e.payment.paymentMethod, "Online")
    ensures e.appointment.None? ==> v.doctorName == "N/A" && v.specialization == "N/A" && v.hospitalName == "N/A"
    ensures e.appointment.None? ==> v.appointmentDate == "N/A" && v.tokenNumber == "#N/A"
    ensures e.appointment.Some? && e.appointment.value.doctor.None? ==> v.doctorName == "N/A" && v.specialization == "N/A"
    ensures e.appointment.Some? && e.appointment.value.doctor.Some? ==>
      v.doctorName == (if e.appointment.value.doctor.value.name != "" then EscapeHtml(e.appointment.value.doctor.value.name) else "N/A")
    ensures e.appointment.Some? && e.appointment.value.doctor.Some? ==>
      v.specialization ==
        (if e.appointment.value.doctor.value.specialization != "" then EscapeHtml(e.appointment.value.doctor.value.specialization) else "N/A")
    ensures e.appointment.Some? && e.appointment.value.hospital.None? ==> v.hospitalName == "N/A"
    ensures e.appointment.Some? && e.appointment.value.hospital.Some? ==>
      v.hospitalName == (if e.appointment.value.hospital.value.name != "" then EscapeHtml(e.appointment.value.hospital.value.name) else "N/A")
    ensures e.appointment.Some? && TruthyInt(e.appointment.value.tokenNumber) ==>
      v.tokenNumber == "#" + EscapeHtml(IntToString(e.appointment.value.tokenNumber.value))
    ensures e.appointment.Some? && !TruthyInt(e.appointment.value.tokenNumber) ==> v.tokenNumber == "#N/A"
    ensures e.appointment.Some? && e.appointment.value.date != "" ==> v.appointmentDate == EscapeHtml(formatDay(e.appointment.value.date))
    ensures e.appointment.Some? && e.appointment.value.date == "" ==> v.appointmentDate == "N/A"
  {
    NotApplicableIsPlain();
    var a := e.appointment;
    var doctor := if a.Some? then a.value.doctor else None;
    var hospital := if a.Some? then a.value.hospital else None;
    SafeValues(
      SafeString(Some(TransactionId(e.payment)), "N/A"),
      EscapeHtml(createdText),
      SafeString(e.payment.paymentMethod, "Online"),
      SafeString(if doctor.Some? then Some(doctor.value.name) else None, "N/A"),
      SafeString(if doctor.Some? then Some(doctor.value.specialization) else None, "N/A"),
      SafeString(if hospital.Some? then Some(hospital.value.name) else None, "N/A"),
      AppointmentDay(a, formatDay),
      TokenLabel(a),
      EscapeHtml(amountText))
  }

  /** The fallback text has nothing to escape. */
  lemma NotApplicableIsPlain()
    ensures EscapeHtml("N/A") == "N/A"
  {
    assert "N/A" == ['N'] + "/A";
    assert "/A" == ['/'] + "A";
    assert "A" == ['A'] + "";
  }

  /** The formatted appointment day, or "N/A" when there is no appointment date. */
  function AppointmentDay(a: Option<AppointmentSummary>, formatDay: string -> string): (r: string)
    ensures a.Some? && a.value.date != "" ==> r == EscapeHtml(formatDay(a.value.date))
    ensures !(a.Some? && a.value.date != "") ==> r == "N/A"
    ensures NoMarkup(r)
  {
    if a.Some? && a.value.date != "" then
      EscapeHasNoMarkup(formatDay(a.value.date));
      EscapeHtml(formatDay(a.value.date))
    else "N/A"
  }

  /** `#` and the token number, or "#N/A" without a token. */
  function TokenLabel(a: Option<AppointmentSummary>): (r: string)
    ensures a.Some? && TruthyInt(a.value.tokenNumber) ==> r == "#" + EscapeHtml(IntToString(a.value.tokenNumber.value))
    ensures !(a.Some? && TruthyInt(a.value.tokenNumber)) ==> r == "#N/A"
    ensures NoMarkup(r)
  {
    if a.Some? && TruthyInt(a.value.tokenNumber) then
      var digits := EscapeHtml(IntToString(a.value.tokenNumber.value));
      EscapeHasNoMarkup(IntToString(a.value.tokenNumber.value));
      PrefixedNoMarkup("#", digits);
      "#" + digits
    else "#N/A"
  }

  function ValueTexts(v: SafeValues): set<string> {
    {v.transactionId, v.date, v.paymentMethod, v.doctorName, v.specialization, v.hospitalName, v.appointmentDate, v.tokenNumber, v.amount}
  }

  predicate ValuesSafe(v: SafeValues) {
    && NoMarkup(v.transactionId) && NoMarkup(v.date) && NoMarkup(v.paymentMethod)
    && NoMarkup(v.doctorName) && NoMarkup(v.specialization) && NoMarkup(v.hospitalName)
    && NoMarkup(v.appointmentDate) && NoMarkup(v.tokenNumber) && NoMarkup(v.amount)
  }

  lemma PrefixedNoMarkup(p: string, s: string)
    requires NoMarkup(p) && NoMarkup(s)
    ensures NoMarkup(p + s)
  {
    forall k | 0 <= k < |p + s| ensures (p + s)[k] != '<' && (p + s)[k] != '>' && (p + s)[k] != '"' && (p + s)[k] != '\'' {
      if k >= |p| { assert (p + s)[k] == s[k - |p|]; }
    }
  }

  /** Whatever the payment holds, no value on the page can open a tag or leave an
      attribute. */
  lemma SafeValuesHaveNoMarkup(e: EnrichedPayment, createdText: string, amountText: string, formatDay: string -> string)
    ensures ValuesSafe(BuildSafeValues(e, createdText, amountText, formatDay))
  {
    EscapeHasNoMarkup(createdText);
    EscapeHasNoMarkup(amountText);
  }

  /** The fixed pieces of the printable page, between which the values are placed. */
  datatype Fixed =
    | Head | Badge | CloseHeader | TransactionSection | CaptionTransactionId | CaptionDate
    | CaptionPaymentMethod | AppointmentSection | CaptionDoctor | CaptionSpecialization
    | CaptionHospital | CaptionAppointmentDate | CaptionToken | CloseValue | CloseSection
    | TotalSection | Footer

  /** The text of each fixed piece (the style sheet left out). */
  function FixedText(f: Fixed): string {
    match f
    case Head => "<!DOCTYPE html><html><head><title>Payment Receipt - MediQ</title></head><body><div class=\"header\"><div class=\"logo\">MediQ</div><div class=\"receipt-title\">Payment Receipt</div>"
    case Badge => "<div class=\"success-badge\">\U{2713} Payment Successful</div>"
    case CloseHeader => "</div>"
    case TransactionSection => "<div class=\"section\"><div class=\"section-title\">Transaction Details</div>"
    case CaptionTransactionId => "<div class=\"info-row\"><span class=\"info-label\">Transaction ID</span><span class=\"info-value\">"
    case CaptionDate => "<div class=\"info-row\"><span class=\"info-label\">Date</span><span class=\"info-value\">"
    case CaptionPaymentMethod => "<div class=\"info-row\"><span class=\"info-label\">Payment Method</span><span class=\"info-value\" style=\"text-transform: capitalize;\">"
    case AppointmentSection => "<div class=\"section\"><div class=\"section-title\">Appointment Details</div>"
    case CaptionDoctor => "<div class=\"info-row\"><span class=\"info-label\">Doctor</span><span class=\"info-value\">"
    case CaptionSpecialization => "<div class=\"info-row\"><span class=\"info-label\">Specialization</span><span class=\"info-value\">"
    case CaptionHospital => "<div class=\"info-row\"><span class=\"info-label\">Hospital</span><span class=\"info-value\">"
    case CaptionAppointmentDate => "<div class=\"info-row\"><span class=\"info-label\">Appointment Date</span><span class=\"info-value\">"
    case CaptionToken => "<div class=\"info-row\"><span class=\"info-label\">Token Number</span><span class=\"info-value\">"
    case CloseValue => "</span></div>"
    case CloseSection => "</div>"
    case TotalSection => "<div class=\"total-section\"><div class=\"total-row\"><span class=\"total-label\">Total Amount Paid</span><span class=\"total-amount\">\U{20B9}"
    case Footer => "</span></div></div><div class=\"footer\"><p>Thank you for choosing MediQ</p><p style=\"margin-top: 8px;\">For support, contact support@mediq.com</p></div></body></html>"
  }

  /** A piece of the page: fixed markup, or one of the escaped values. */
  datatype Piece = Markup(fixed: Fixed) | Value(text: string)

  function Row(caption: Fixed, value: string): seq<Piece> {
    [Markup(caption), Value(value), Markup(CloseValue)]
  }

  /** The page of `generateSafeReceiptHtml(values, isCompleted)`, piece by piece. */
  function ReceiptPieces(v: SafeValues, isCompleted: bool): (page: seq<Piece>)
    ensures Markup(Badge) in page <==> isCompleted
    ensures forall p :: p in page && p.Value? ==> p.text in ValueTexts(v)
  {
    [Markup(Head)] + Body(v, isCompleted) + [Markup(Footer)]
  }

  /** The pieces between the page's head and its footer. */
  function Body(v: SafeValues, isCompleted: bool): seq<Piece> {
    (if isCompleted then [Markup(Badge)] else []) + [Markup(CloseHeader)]
    + [Markup(TransactionSection)]
    + Row(CaptionTransactionId, v.transactionId) + Row(CaptionDate, v.date) + Row(CaptionPaymentMethod, v.paymentMethod)
    + [Markup(CloseSection), Markup(AppointmentSection)]
    + Row(CaptionDoctor, v.doctorName) + Row(CaptionSpecialization, v.specialization) + Row(CaptionHospital, v.hospitalName)
    + Row(CaptionAppointmentDate, v.appointmentDate) + Row(CaptionToken, v.tokenNumber)
    + [Markup(CloseSection), Markup(TotalSection), Value(v.amount)]
  }

  /** The page's text: the pieces written out in order. */
  function Render(page: seq<Piece>): string {
    if page == [] then ""
    else (match page[0] case Markup(f) => FixedText(f) case Value(t) => t) + Render(page[1..])
  }

  /** Writing out two runs of pieces one after the other. */
  lemma {:induction false} RenderAppend(a: seq<Piece>, b: seq<Piece>)
    ensures Render(a + b) == Render(a) + Render(b)
  {
    if a != [] {
      assert (a + b)[0] == a[0];
      assert (a + b)[1..] == a[1..] + b;
      RenderAppend(a[1..], b);
    } else {
      assert a + b == b;
    }
  }

  lemma AppendNothing(t: string)
    ensures t + "" == t
  {
  }

  lemma RenderOne(f: Fixed)
    ensures Render([Markup(f)]) == FixedText(f)
  {
    assert [Markup(f)][1..] == [];
    AppendNothing(FixedText(f));
  }

  lemma RenderFramed(first: Fixed, body: seq<Piece>, last: Fixed)
    ensures Render([Markup(first)] + body + [Markup(last)]) == FixedText(first) + Render(body) + FixedText(last)
  {
    var a := [Markup(first)] + body;
    RenderAppend(a, [Markup(last)]);
    RenderAppend([Markup(first)], body);
    RenderOne(first);
    RenderOne(last);
  }

  /** `generateSafeReceiptHtml`: a whole document, from the doctype and header that open
      it to the footer that closes the body and the page. */
  function ReceiptHtml(v: SafeValues, isCompleted: bool): (html: string)
    ensures html == FixedText(Head) + Render(Body(v, isCompleted)) + FixedText(Footer)
  {
    RenderFramed(Head, Body(v, isCompleted), Footer);
    Render(ReceiptPieces(v, isCompleted))
  }

  /** Every value written into the receipt's page is free of markup, and the success
      badge is on the page iff the payment's status is `completed`. */
  lemma ReceiptPageSafe(e: EnrichedPayment, createdText: string, amountText: string, formatDay: string -> string)
    ensures var page := ReceiptPieces(BuildSafeValues(e, createdText, amountText, formatDay), e.payment.status == "completed");
      && (forall p :: p in page && p.Value? ==> NoMarkup(p.text))
      && (Markup(Badge) in page <==> e.payment.status == "completed")
  {
    var v := BuildSafeValues(e, createdText, amountText, formatDay);
    SafeValuesHaveNoMarkup(e, createdText, amountText, formatDay);
    PiecesOfSafeValuesSafe(v, e.payment.status == "completed");
  }

  lemma PiecesOfSafeValuesSafe(v: SafeValues, isCompleted: bool)
    requires ValuesSafe(v)
    ensures forall p :: p in ReceiptPieces(v, isCompleted) && p.Value? ==> NoMarkup(p.text)
  {
  }

  /** What the modal renders: nothing without a payment, otherwise the receipt. */
  function Modal(payment: Option<EnrichedPayment>, createdText: string, amountText: string, formatDay: string -> string): (r: Option<string>)
    ensures payment.None? <==> r.None?
    ensures r.Some? ==> r.value == ReceiptHtml(BuildSafeValues(payment.value, createdText, amountText, formatDay), payment.value.payment.status == "completed")
  {
    match payment
    case None => None
    case Some(e) => Some(ReceiptHtml(BuildSafeValues(e, createdText, amountText, formatDay), e.payment.status == "completed"))
  }
}
