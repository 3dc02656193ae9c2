/** The `send-notification` edge function: who may call it, which channels are used,
    the log rows and results it produces, and the e-mail content it renders. The auth
    service, the e-mail provider's reply and the push subscriptions of the user are
    inputs; the preferences and the log rows live in the store. */
module SendNotification {
  import opened Wrappers
  import opened Strings
  import opened HtmlEscape
  import opened Store

  /** The parts of the request body the handler reads. */
  datatype AppointmentDetails = AppointmentDetails(
    patientName: Option<string>,
    doctorName: Option<string>,
    hospitalName: Option<string>,
    date: Option<string>,
    time: Option<string>,
    apptType: Option<string>,
    tokenNumber: Option<int>)

  datatype EmailData = EmailData(recipientEmail: Option<string>, details: Option<AppointmentDetails>)

  datatype NotificationRequest = NotificationRequest(
    userId: Option<string>,
    appointmentId: Option<string>,
    kind: string,
    title: string,
    message: string,
    emailData: Option<EmailData>)

  /** The `user_id` the handler destructures from a JSON object body. */
  function RequestUserId(body: map<string, string>): (u: Option<string>)
    ensures u.Some? <==> "user_id" in body
    ensures u.Some? ==> u.value == body["user_id"]
  {
    if "user_id" in body then Some(body["user_id"]) else None
  }

  /** The `Authorization` and `X-Internal-Secret` request headers. */
  datatype Headers = Headers(authorization: Option<string>, internalSecret: Option<string>)

  /** A service call presents the configured internal secret; both must be non-empty. */
  predicate IsServiceCall(configured: Option<string>, provided: Option<string>) {
    Truthy(configured) && Truthy(provided) && provided == configured
  }

  datatype AuthOutcome = ServiceCall | UserCall | Rejected(httpStatus: int, error: string)

  /** The access decision. A call that is not a service call needs a bearer token that
      the auth service resolves (`authUser`) to exactly the request's `user_id`. */
  function Authorize(serviceCall: bool, authorization: Option<string>, authUser: Option<string>, requestUser: Option<string>): (r: AuthOutcome)
    ensures r == ServiceCall <==> serviceCall
    ensures r == UserCall <==> !serviceCall && Truthy(authorization) && authUser.Some? && requestUser == authUser
    ensures !serviceCall && !Truthy(authorization) ==> r == Rejected(401, "Missing authorization header")
    ensures !serviceCall && Truthy(authorization) && authUser.None? ==>
      r == Rejected(401, "Invalid or expired authentication token")
    ensures !serviceCall && Truthy(authorization) && authUser.Some? && requestUser != authUser ==>
      r == Rejected(403, "You can only send notifications for your own account")
  {
    if serviceCall then ServiceCall
    else if !Truthy(authorization) then Rejected(401, "Missing authorization header")
    else if authUser.None? then Rejected(401, "Invalid or expired authentication token")
    else if authUser != requestUser then Rejected(403, "You can only send notifications for your own account")
    else UserCall
  }

  /** `preferences?.email_enabled ?? true`: no row means enabled. */
  function EmailEnabled(prefs: Option<Preferences>): (b: bool)
    ensures prefs.None? ==> b
    ensures prefs.Some? ==> b == prefs.value.emailEnabled
  {
    match prefs
    case None => true
    case Some(p) => p.emailEnabled
  }

  /** `preferences?.push_enabled ?? true`. */
  function PushEnabled(prefs: Option<Preferences>): (b: bool)
    ensures prefs.None? ==> b
    ensures prefs.Some? ==> b == prefs.value.pushEnabled
  {
    match prefs
    case None => true
    case Some(p) => p.pushEnabled
  }

  /** An e-mail is attempted when the channel is enabled and a recipient is given. */
  predicate WantsEmail(prefs: Option<Preferences>, req: NotificationRequest) {
    EmailEnabled(prefs) && req.emailData.Some? && Truthy(req.emailData.value.recipientEmail)
  }

  function LogRow(req: NotificationRequest, channel: Channel, status: Delivery, error: Option<string>): NotificationLog {
    NotificationLog(req.userId, req.appointmentId, req.kind, channel, status, req.title, req.message, error)
  }

  /** The log row of an e-mail attempt: `sent`, or `failed` with a fixed message. */
  function EmailLog(req: NotificationRequest, delivered: bool): (row: NotificationLog)
    ensures row.channel == Email && row.kind == req.kind && row.userId == req.userId
    ensures row.status == (if delivered then Sent else Failed)
    ensures row.errorMessage == (if delivered then None else Some("Email delivery failed"))
  {
    if delivered then LogRow(req, Email, Sent, None)
    else LogRow(req, Email, Failed, Some("Email delivery failed"))
  }

  datatype ChannelResult = ChannelResult(channel: Channel, status: Delivery)

  /** A `push_subscriptions` row. */
  datatype Subscription = Subscription(endpoint: string)

  /** The push loop: one `push`/`sent` log row and one result per subscription, in order. */
  method PushRecords(req: NotificationRequest, subscriptions: seq<Subscription>)
    returns (rows: seq<NotificationLog>, results: seq<ChannelResult>)
    ensures |rows| == |subscriptions| && |results| == |subscriptions|
    ensures forall k :: 0 <= k < |rows| ==> rows[k] == LogRow(req, Push, Sent, None)
    ensures forall k :: 0 <= k < |results| ==> results[k] == ChannelResult(Push, Sent)
  {
    rows, results := [], [];
    var i := 0;
    while i < |subscriptions|
      invariant 0 <= i <= |subscriptions|
      invariant |rows| == i && |results| == i
      invariant forall k :: 0 <= k < i ==> rows[k] == LogRow(req, Push, Sent, None)
      invariant forall k :: 0 <= k < i ==> results[k] == ChannelResult(Push, Sent)
    {
      rows := rows + [LogRow(req, Push, Sent, None)];
      results := results + [ChannelResult(Push, Sent)];
      i := i + 1;
    }
  }

  /** `w.charAt(0).toUpperCase() + w.slice(1)` (ASCII upper-casing). */
  function Capitalize(w: string): (r: string)
    ensures |r| == |w|
    ensures w != "" ==> r[0] == ToUpper(w[0]) && r[1..] == w[1..]
  {
    if w == "" then "" else [ToUpper(w[0])] + w[1..]
  }

  function CapitalizeAll(parts: seq<string>): (r: seq<string>)
    ensures |r| == |parts|
    ensures forall k :: 0 <= k < |parts| ==> r[k] == Capitalize(parts[k])
  {
    if parts == [] then [] else [Capitalize(parts[0])] + CapitalizeAll(parts[1..])
  }

  /** The e-mail heading: the words of `type` between underscores, capitalised and
      joined with spaces. */
  function Heading(kind: string): string {
    Join(CapitalizeAll(Split(kind, '_')), " ")
  }

  /** A character-by-character description of the heading: underscores become spaces,
      the first character of each word is upper-cased. */
  function HeadingSpec(t: string, atWordStart: bool): (r: string)
    ensures |r| == |t|
  {
    if t == [] then []
    else if t[0] == '_' then " " + HeadingSpec(t[1..], true)
    else [if atWordStart then ToUpper(t[0]) else t[0]] + HeadingSpec(t[1..], false)
  }

  /** The parts with all but possibly the first capitalised. */
  function CapitalizeTail(parts: seq<string>, first: bool): seq<string>
    requires |parts| >= 1
  {
    [if first then Capitalize(parts[0]) else parts[0]] + CapitalizeAll(parts[1..])
  }

  lemma JoinConsHead(c: char, a: string, q: seq<string>, sep: string)
    ensures Join([[c] + a] + q, sep) == [c] + Join([a] + q, sep)
  {
    if q != [] {
      assert ([[c] + a] + q)[1..] == q && ([a] + q)[1..] == q;
    }
  }

  /** A leading underscore closes an empty first word. */
  lemma HeadingStepBar(t: string, first: bool)
    requires t != [] && t[0] == '_'
    ensures Join(CapitalizeTail(Split(t, '_'), first), " ") == " " + Join(CapitalizeTail(Split(t[1..], '_'), true), " ")
  {
    var rest := Split(t[1..], '_');
    assert Split(t, '_') == [""] + rest;
    var parts := [""] + CapitalizeAll(rest);
    assert CapitalizeTail([""] + rest, first) == parts;
    assert CapitalizeAll(rest) == CapitalizeTail(rest, true);
    assert |parts| >= 2 && parts[0] == "" && parts[1..] == CapitalizeAll(rest);
    assert Join(parts, " ") == "" + " " + Join(parts[1..], " ");
  }

  /** Any other leading character starts the first word. */
  lemma HeadingStepChar(t: string, first: bool)
    requires t != [] && t[0] != '_'
    ensures Join(CapitalizeTail(Split(t, '_'), first), " ") ==
      [if first then ToUpper(t[0]) else t[0]] + Join(CapitalizeTail(Split(t[1..], '_'), false), " ")
  {
    var rest := Split(t[1..], '_');
    var q := CapitalizeAll(rest[1..]);
    assert Split(t, '_') == [[t[0]] + rest[0]] + rest[1..];
    var x := if first then ToUpper(t[0]) else t[0];
    assert CapitalizeTail(Split(t, '_'), first) == [[x] + rest[0]] + q;
    assert CapitalizeTail(rest, false) == [rest[0]] + q;
    JoinConsHead(x, rest[0], q, " ");
  }

  lemma {:induction false} HeadingMatchesSpec(t: string, first: bool)
    ensures Join(CapitalizeTail(Split(t, '_'), first), " ") == HeadingSpec(t, first)
  {
    if t != [] {
      if t[0] == '_' {
        HeadingStepBar(t, first);
        HeadingMatchesSpec(t[1..], true);
      } else {
        HeadingStepChar(t, first);
        HeadingMatchesSpec(t[1..], false);
      }
    }
  }

  lemma {:induction false} HeadingSpecAt(t: string, first: bool, k: nat)
    requires k < |t|
    ensures HeadingSpec(t, first)[k] ==
      if t[k] == '_' then ' '
      else if (k == 0 && first) || (k > 0 && t[k - 1] == '_') then ToUpper(t[k])
      else t[k]
  {
    if k > 0 {
      HeadingSpecAt(t[1..], t[0] == '_', k - 1);
    }
  }

  /** The heading has one character per character of `type`: an underscore becomes a
      space, a character that starts a word is upper-cased, the others are kept. */
  lemma HeadingAt(t: string, k: nat)
    requires k < |t|
    ensures |Heading(t)| == |t|
    ensures Heading(t)[k] ==
      if t[k] == '_' then ' '
      else if k == 0 || t[k - 1] == '_' then ToUpper(t[k])
      else t[k]
  {
    HeadingMatchesSpec(t, true);
    assert CapitalizeAll(Split(t, '_')) == CapitalizeTail(Split(t, '_'), true);
    HeadingSpecAt(t, true, k);
  }

  /** The lines of the appointment details block, in the order they are rendered. */
  datatype Detail = PatientDetail | DoctorDetail | HospitalDetail | DateDetail | TimeDetail | TypeDetail | TokenDetail

  /** The label in front of a line's value. */
  function Caption(f: Detail): string {
    match f
    case PatientDetail => "Patient:"
    case DoctorDetail => "Doctor:"
    case HospitalDetail => "Hospital:"
    case DateDetail => "Date:"
    case TimeDetail => "Time:"
    case TypeDetail => "Type:"
    case TokenDetail => "Token Number:"
  }

  /** The position of a line in the block. */
  function Rank(f: Detail): nat {
    match f
    case PatientDetail => 0
    case DoctorDetail => 1
    case HospitalDetail => 2
    case DateDetail => 3
    case TimeDetail => 4
    case TypeDetail => 5
    case TokenDetail => 6
  }

  const DetailOrder: seq<Detail> :=
    [PatientDetail, DoctorDetail, HospitalDetail, DateDetail, TimeDetail, TypeDetail, TokenDetail]

  /** The value line `f` shows for `d`: none when its field is falsy, otherwise the
      escaped field (the date as `localeDate` formats it, the token number after a
      `#`). `localeDate` stands for `new Date(date).toLocaleDateString()`. */
  function Shown(f: Detail, d: AppointmentDetails, localeDate: string -> string): Option<string> {
    match f
    case PatientDetail => if Truthy(d.patientName) then Some(EscapeHtml(d.patientName.value)) else None
    case DoctorDetail => if Truthy(d.doctorName) then Some(EscapeHtml(d.doctorName.value)) else None
    case HospitalDetail => if Truthy(d.hospitalName) then Some(EscapeHtml(d.hospitalName.value)) else None
    case DateDetail => if Truthy(d.date) then Some(EscapeHtml(localeDate(d.date.value))) else None
    case TimeDetail => if Truthy(d.time) then Some(EscapeHtml(d.time.value)) else None
    case TypeDetail => if Truthy(d.apptType) then Some(EscapeHtml(d.apptType.value)) else None
    case TokenDetail =>
      if TruthyInt(d.tokenNumber) then Some("#" + EscapeHtml(IntToString(d.tokenNumber.value))) else None
  }

  /** One labelled line of the appointment details block. */
  datatype DetailRow = DetailRow(field: Detail, value: string)

  predicate HasRow(rows: seq<DetailRow>, f: Detail) {
    exists k :: 0 <= k < |rows| && rows[k].field == f
  }

  /** The rows follow the block's order, so no line appears twice. */
  predicate InDetailOrder(rows: seq<DetailRow>) {
    forall i, j :: 0 <= i < j < |rows| ==> Rank(rows[i].field) < Rank(rows[j].field)
  }

  /** The rendered content of the message: every value taken from the request is escaped. */
  datatype EmailContent = EmailContent(heading: string, message: string, details: seq<DetailRow>)

  /** The rows of the lines `fs` whose fields are truthy, in the order of `fs`. */
  function RowsFor(fs: seq<Detail>, d: AppointmentDetails, localeDate: string -> string): (rows: seq<DetailRow>)
    ensures |rows| <= |fs|
    ensures forall k :: 0 <= k < |rows| ==>
      rows[k].field in fs && Shown(rows[k].field, d, localeDate) == Some(rows[k].value)
  {
    if fs == [] then []
    else
      var rest := RowsFor(fs[1..], d, localeDate);
      match Shown(fs[0], d, localeDate)
      case Some(v) => [DetailRow(fs[0], v)] + rest
      case None => rest
  }

  lemma {:induction false} RowsForComplete(fs: seq<Detail>, d: AppointmentDetails, localeDate: string -> string)
    ensures forall f :: f in fs && Shown(f, d, localeDate).Some? ==> HasRow(RowsFor(fs, d, localeDate), f)
  {
    if fs != [] {
      RowsForComplete(fs[1..], d, localeDate);
      var rows := RowsFor(fs, d, localeDate);
      var rest := RowsFor(fs[1..], d, localeDate);
      forall f | f in fs && Shown(f, d, localeDate).Some? ensures HasRow(rows, f) {
        if Shown(fs[0], d, localeDate).Some? {
          assert rows == [DetailRow(fs[0], Shown(fs[0], d, localeDate).value)] + rest;
          if f == fs[0] {
            assert rows[0].field == f;
          } else {
            assert f in fs[1..];
            var k :| 0 <= k < |rest| && rest[k].field == f;
            assert rows[k + 1].field == f;
          }
        } else {
          assert f != fs[0];
          assert f in fs[1..];
        }
      }
    }
  }

  lemma {:induction false} RowsForOrdered(fs: seq<Detail>, d: AppointmentDetails, localeDate: string -> string)
    requires forall i, j :: 0 <= i < j < |fs| ==> Rank(fs[i]) < Rank(fs[j])
    ensures InDetailOrder(RowsFor(fs, d, localeDate))
  {
    if fs != [] {
      RowsForOrdered(fs[1..], d, localeDate);
      var rest := RowsFor(fs[1..], d, localeDate);
      forall k | 0 <= k < |rest| ensures Rank(fs[0]) < Rank(rest[k].field) {
        var i :| 0 <= i < |fs[1..]| && fs[1..][i] == rest[k].field;
        assert fs[i + 1] == rest[k].field;
      }
    }
  }

  lemma DetailOrderListsAll(f: Detail)
    ensures f in DetailOrder
  {
    match f
    case PatientDetail => assert DetailOrder[0] == f;
    case DoctorDetail => assert DetailOrder[1] == f;
    case HospitalDetail => assert DetailOrder[2] == f;
    case DateDetail => assert DetailOrder[3] == f;
    case TimeDetail => assert DetailOrder[4] == f;
    case TypeDetail => assert DetailOrder[5] == f;
    case TokenDetail => assert DetailOrder[6] == f;
  }

  /** The details block: its lines in their fixed order, a line present exactly when
      its field is truthy, and each showing that field's escaped value. */
  function DetailRows(d: AppointmentDetails, localeDate: string -> string): (rows: seq<DetailRow>)
    ensures |rows| <= 7
    ensures InDetailOrder(rows)
    ensures forall f :: HasRow(rows, f) <==> Shown(f, d, localeDate).Some?
    ensures forall k :: 0 <= k < |rows| ==> Shown(rows[k].field, d, localeDate) == Some(rows[k].value)
  {
    RowsForOrdered(DetailOrder, d, localeDate);
    RowsForComplete(DetailOrder, d, localeDate);
    assert forall f :: f in DetailOrder by {
      forall f: Detail ensures f in DetailOrder { DetailOrderListsAll(f); }
    }
    RowsFor(DetailOrder, d, localeDate)
  }

  /** `generateEmailTemplate` without the fixed markup around the values. */
  function EmailTemplate(kind: string, message: string, details: Option<AppointmentDetails>, localeDate: string -> string): (e: EmailContent)
    ensures e.heading == EscapeHtml(Heading(kind)) && e.message == EscapeHtml(message)
    ensures details.None? ==> e.details == []
    ensures details.Some? ==> e.details == DetailRows(details.value, localeDate)
  {
    EmailContent(EscapeHtml(Heading(kind)), EscapeHtml(message),
      if details.Some? then DetailRows(details.value, localeDate) else [])
  }

  predicate RowsHaveNoMarkup(rows: seq<DetailRow>) {
    forall k :: 0 <= k < |rows| ==> NoMarkup(rows[k].value)
  }

  lemma ShownSafe(f: Detail, d: AppointmentDetails, localeDate: string -> string)
    requires Shown(f, d, localeDate).Some?
    ensures NoMarkup(Shown(f, d, localeDate).value)
  {
    match f
    case PatientDetail => EscapeHasNoMarkup(d.patientName.value);
    case DoctorDetail => EscapeHasNoMarkup(d.doctorName.value);
    case HospitalDetail => EscapeHasNoMarkup(d.hospitalName.value);
    case DateDetail => EscapeHasNoMarkup(localeDate(d.date.value));
    case TimeDetail => EscapeHasNoMarkup(d.time.value);
    case TypeDetail => EscapeHasNoMarkup(d.apptType.value);
    case TokenDetail =>
      var e := EscapeHtml(IntToString(d.tokenNumber.value));
      EscapeHasNoMarkup(IntToString(d.tokenNumber.value));
      assert forall k :: 1 <= k < |"#" + e| ==> ("#" + e)[k] == e[k - 1];
  }

  /** No value interpolated into the e-mail can open a tag or break out of an attribute. */
  lemma EmailTemplateSafe(kind: string, message: string, details: Option<AppointmentDetails>, localeDate: string -> string)
    ensures var e := EmailTemplate(kind, message, details, localeDate);
      NoMarkup(e.heading) && NoMarkup(e.message) && RowsHaveNoMarkup(e.details)
  {
    EscapeHasNoMarkup(Heading(kind));
    EscapeHasNoMarkup(message);
    if details.Some? {
      var rows := DetailRows(details.value, localeDate);
      forall k | 0 <= k < |rows| ensures NoMarkup(rows[k].value) {
        ShownSafe(rows[k].field, details.value, localeDate);
      }
    }
  }

  /** The e-mail handed to the provider. */
  datatype OutgoingEmail = OutgoingEmail(to: string, subject: string, content: EmailContent)

  datatype Response = Preflight | Delivered(results: seq<ChannelResult>) | Refused(httpStatus: int, error: string)

  /** The log rows one delivery writes: one e-mail row when an e-mail is attempted, then
      one push row per subscription when push is enabled. */
  function ExpectedLogs(req: NotificationRequest, prefs: Option<Preferences>, subs: seq<Subscription>, accepted: bool): (rows: seq<NotificationLog>)
    ensures |rows| == (if WantsEmail(prefs, req) then 1 else 0) + (if PushEnabled(prefs) then |subs| else 0)
    ensures WantsEmail(prefs, req) ==> rows[0] == EmailLog(req, accepted)
    ensures forall k :: (if WantsEmail(prefs, req) then 1 else 0) <= k < |rows| ==>
      rows[k] == LogRow(req, Push, Sent, None)
  {
    (if WantsEmail(prefs, req) then [EmailLog(req, accepted)] else [])
    + (if PushEnabled(prefs) then seq(|subs|, _ => LogRow(req, Push, Sent, None)) else [])
  }

  /** The `results` array: the same entries as the log rows, in the same order. */
  function ExpectedResults(req: NotificationRequest, prefs: Option<Preferences>, subs: seq<Subscription>, accepted: bool): (rs: seq<ChannelResult>)
    ensures |rs| == |ExpectedLogs(req, prefs, subs, accepted)|
    ensures forall k :: 0 <= k < |rs| ==>
      var row := ExpectedLogs(req, prefs, subs, accepted)[k];
      rs[k] == ChannelResult(row.channel, row.status)
  {
    (if WantsEmail(prefs, req) then [ChannelResult(Email, if accepted then Sent else Failed)] else [])
    + (if PushEnabled(prefs) then seq(|subs|, _ => ChannelResult(Push, Sent)) else [])
  }

  /** Nothing is sent or logged for a channel the preferences turn off. */
  lemma DisabledChannelsWriteNothing(req: NotificationRequest, p: Preferences, subs: seq<Subscription>, accepted: bool)
    requires !p.emailEnabled && !p.pushEnabled
    ensures ExpectedLogs(req, Some(p), subs, accepted) == []
  {
  }

  /** Without a stored row, both channels are used. */
  lemma NoPreferencesMeansAllChannels(req: NotificationRequest, subs: seq<Subscription>, accepted: bool)
    requires req.emailData.Some? && Truthy(req.emailData.value.recipientEmail)
    ensures |ExpectedLogs(req, None, subs, accepted)| == 1 + |subs|
    ensures ExpectedLogs(req, None, subs, accepted)[0].channel == Email
  {
  }

  /** The preferences row in force: looked up only for a truthy `user_id`. */
  function KnownPreferences(db: Database, userId: Option<string>): Option<Preferences>
    reads db
  {
    if Truthy(userId) && userId.value in db.preferences then Some(db.preferences[userId.value]) else None
  }

  /** The e-mail and push steps, once access is granted and the preferences are known. */
  method Deliver(
    db: Database, req: NotificationRequest, prefs: Option<Preferences>, subscriptions: Option<seq<Subscription>>,
    emailAccepted: bool, localeDate: string -> string)
    returns (results: seq<ChannelResult>, email: Option<OutgoingEmail>)
    modifies db`notifications
    ensures var subs := if subscriptions.Some? then subscriptions.value else [];
      && db.notifications == old(db.notifications) + ExpectedLogs(req, prefs, subs, emailAccepted)
      && results == ExpectedResults(req, prefs, subs, emailAccepted)
    ensures WantsEmail(prefs, req) ==>
      email == Some(OutgoingEmail(req.emailData.value.recipientEmail.value, req.title,
        EmailTemplate(req.kind, req.message, req.emailData.value.details, localeDate)))
    ensures !WantsEmail(prefs, req) ==> email == None
  {
    email := None;
    var subs := if subscriptions.Some? then subscriptions.value else [];
    var emailRows: seq<NotificationLog> := [];
    results := [];
    if WantsEmail(prefs, req) {
      var data := req.emailData.value;
      email := Some(OutgoingEmail(data.recipientEmail.value, req.title,
        EmailTemplate(req.kind, req.message, data.details, localeDate)));
      emailRows := [EmailLog(req, emailAccepted)];
      results := [ChannelResult(Email, if emailAccepted then Sent else Failed)];
    }
    var pushRows: seq<NotificationLog> := [];
    var pushResults: seq<ChannelResult> := [];
    if PushEnabled(prefs) && |subs| > 0 {
      pushRows, pushResults := PushRecords(req, subs);
    }
    var pushLogs := if PushEnabled(prefs) then seq(|subs|, _ => LogRow(req, Push, Sent, None)) else [];
    var pushChannel := if PushEnabled(prefs) then seq(|subs|, _ => ChannelResult(Push, Sent)) else [];
    assert pushRows == pushLogs;
    assert pushResults == pushChannel;
    assert emailRows + pushLogs == ExpectedLogs(req, prefs, subs, emailAccepted);
    assert results + pushChannel == ExpectedResults(req, prefs, subs, emailAccepted);
    db.notifications := db.notifications + (emailRows + pushRows);
    results := results + pushResults;
  }

  /** The handler. `body` is `None` when the request body is not JSON; `authUser` is the
      user the auth service resolves from the bearer token; `emailAccepted` is whether the
      provider accepted the message without an error. */
  method HandleNotification(
    db: Database, httpMethod: string, headers: Headers, body: Option<NotificationRequest>,
    configuredSecret: Option<string>, authUser: Option<string>, subscriptions: Option<seq<Subscription>>,
    emailAccepted: bool, localeDate: string -> string)
    returns (resp: Response, email: Option<OutgoingEmail>)
    modifies db`notifications, db`preferences
    ensures httpMethod == "OPTIONS" ==> resp == Preflight
    ensures httpMethod != "OPTIONS" && body.None? ==> resp == Refused(500, "Notification processing failed")
    ensures !resp.Delivered? ==>
      email == None && db.notifications == old(db.notifications) && db.preferences == old(db.preferences)
    ensures httpMethod != "OPTIONS" && body.Some? ==>
      var auth := Authorize(IsServiceCall(configuredSecret, headers.internalSecret), headers.authorization, authUser, body.value.userId);
      (auth.Rejected? ==> resp == Refused(auth.httpStatus, auth.error)) && (!auth.Rejected? ==> resp.Delivered?)
    ensures resp.Delivered? ==>
      var req := body.value;
      var prefs := old(KnownPreferences(db, req.userId));
      var subs := if subscriptions.Some? then subscriptions.value else [];
      && httpMethod != "OPTIONS"
      && db.preferences == (if Truthy(req.userId) && prefs.None?
                            then old(db.preferences)[req.userId.value := DefaultPreferences]
                            else old(db.preferences))
      && db.notifications == old(db.notifications) + ExpectedLogs(req, prefs, subs, emailAccepted)
      && resp.results == ExpectedResults(req, prefs, subs, emailAccepted)
      && (WantsEmail(prefs, req) <==> email.Some?)
  {
    email := None;
    if httpMethod == "OPTIONS" {
      return Preflight, email;
    }
    if body.None? {
      return Refused(500, "Notification processing failed"), email;
    }
    var req := body.value;
    var auth := Authorize(IsServiceCall(configuredSecret, headers.internalSecret), headers.authorization, authUser, req.userId);
    if auth.Rejected? {
      return Refused(auth.httpStatus, auth.error), email;
    }
    var prefs := KnownPreferences(db, req.userId);
    if Truthy(req.userId) && prefs.None? {
      db.preferences := db.preferences[req.userId.value := DefaultPreferences];
    }
    var results;
    results, email := Deliver(db, req, prefs, subscriptions, emailAccepted, localeDate);
    resp := Delivered(results);
  }
}
