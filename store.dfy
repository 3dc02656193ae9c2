/** The rows of the `appointments` and `payments` tables and the store that holds them. */
module Store {
  import opened Wrappers

  /** The appointment status column. The application writes five values; any other
      string read from the table is kept as `Other`. */
  datatype Status = Scheduled | Confirmed | InConsultation | Completed | Cancelled | Other(name: string)

  function StatusName(s: Status): string {
    match s
    case Scheduled => "scheduled"
    case Confirmed => "confirmed"
    case InConsultation => "in_consultation"
    case Completed => "completed"
    case Cancelled => "cancelled"
    case Other(n) => n
  }

  predicate IsKnownName(n: string) {
    n == "scheduled" || n == "confirmed" || n == "in_consultation" || n == "completed" || n == "cancelled"
  }

  /** Reads the column: any string is accepted, the five known ones become their own value. */
  function ParseStatus(n: string): (s: Status)
    ensures StatusName(s) == n
    ensures s.Other? <==> !IsKnownName(n)
  {
    if n == "scheduled" then Scheduled
    else if n == "confirmed" then Confirmed
    else if n == "in_consultation" then InConsultation
    else if n == "completed" then Completed
    else if n == "cancelled" then Cancelled
    else Other(n)
  }

  /** `Other` never spells one of the five known values. */
  predicate IsCanonical(s: Status) {
    s.Other? ==> !IsKnownName(s.name)
  }

  /** Writing a status and reading it back gives the same status. */
  lemma ParseStatusName(s: Status)
    requires IsCanonical(s)
    ensures ParseStatus(StatusName(s)) == s
  {
  }

  /** An `appointments` row. `follow_up_date` and `consultation_notes` are written by the
      doctor's status update. */
  datatype Appointment = Appointment(
    id: string,
    userId: string,
    doctorId: string,
    hospitalId: string,
    date: string,
    time: string,
    apptType: string,
    status: Status,
    tokenNumber: Option<int>,
    queuePosition: Option<int>,
    specialInstructions: Option<string>,
    followUpDate: Option<string>,
    consultationNotes: Option<string>)

  /** A `payments` row; amounts are whole rupees. */
  datatype Payment = Payment(
    id: string,
    userId: string,
    appointmentId: string,
    amount: int,
    currency: string,
    orderId: string,
    gatewayPaymentId: Option<string>,
    signature: Option<string>,
    status: string,
    paymentMethod: Option<string>)

  /** A `notification_preferences` row. */
  datatype Preferences = Preferences(emailEnabled: bool, pushEnabled: bool, appointmentReminders: bool, queueUpdates: bool)

  /** The row inserted when a user has none: every channel and topic enabled. */
  const DefaultPreferences := Preferences(true, true, true, true)

  datatype Channel = Email | Push
  datatype Delivery = Sent | Failed

  /** A `notifications` log row (`sent_at` is a clock reading and is not modelled). */
  datatype NotificationLog = NotificationLog(
    userId: Option<string>,
    appointmentId: Option<string>,
    kind: string,
    channel: Channel,
    status: Delivery,
    title: string,
    message: string,
    errorMessage: Option<string>)

  /** What a failing call throws: an `Error` with a message, or any other value. */
  datatype Thrown = JsError(message: string) | NonError

  /** `error instanceof Error ? error.message : 'Unknown error occurred'`. */
  function ThrownMessage(e: Thrown): (m: string)
    ensures e.JsError? ==> m == e.message
    ensures e.NonError? ==> m == "Unknown error occurred"
  {
    match e
    case JsError(msg) => msg
    case NonError => "Unknown error occurred"
  }

  /** The reply to an insert: the id the database generated for the row, or an error. */
  datatype InsertReply = Inserted(newId: string) | InsertFailed(error: Thrown)

  /** The message PostgREST gives when `.single()` finds no row. */
  const NoSingleRow := "JSON object requested, multiple (or no) rows returned"

  /** `m` with the status of row `id` replaced by `s`, when there is such a row:
      `update({ status }).eq("id", id)`. */
  function WithStatus(m: map<string, Appointment>, id: string, s: Status): (r: map<string, Appointment>)
    ensures r.Keys == m.Keys
    ensures id in m ==> r[id] == m[id].(status := s)
    ensures forall k :: k in m && k != id ==> r[k] == m[k]
  {
    if id in m then m[id := m[id].(status := s)] else m
  }

  /** Every row is filed under its own id. */
  predicate KeyedById(m: map<string, Appointment>) {
    forall k :: k in m ==> m[k].id == k
  }

  /** A status write keeps the rows filed under their ids. */
  lemma WithStatusKeyed(m: map<string, Appointment>, id: string, s: Status)
    requires KeyedById(m)
    ensures KeyedById(WithStatus(m, id, s))
  {
  }

  /** Writing the same status twice is the same as writing it once. */
  lemma WithStatusIdempotent(m: map<string, Appointment>, id: string, s: Status)
    ensures WithStatus(WithStatus(m, id, s), id, s) == WithStatus(m, id, s)
  {
  }

  /** A row of `reviews_ratings`: a rating of a doctor or of a hospital. */
  datatype Review = Review(
    id: string,
    doctorId: Option<string>,
    hospitalId: Option<string>,
    rating: int,
    review: Option<string>,
    userId: string)

  /** The tables the core writes: appointments by id; payments, notification logs and
      reviews in insertion order; preferences by user id. */
  class Database {
    var appointments: map<string, Appointment>
    var payments: seq<Payment>
    var notifications: seq<NotificationLog>
    var preferences: map<string, Preferences>
    var reviews: seq<Review>

    ghost predicate Valid()
      reads this
    {
      KeyedById(appointments)
    }

    constructor ()
      ensures Valid() && appointments == map[] && payments == []
      ensures notifications == [] && preferences == map[] && reviews == []
    {
      appointments := map[];
      payments := [];
      notifications := [];
      preferences := map[];
      reviews := [];
    }
  }
}
