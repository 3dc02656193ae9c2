/** The payment history hooks (`usePayments`, `usePaymentById`): payment rows joined
    with their appointment, the appointment's doctor and its hospital. The database
    replies are inputs; a join partner that is not found is left `undefined`. */
module Payments {
  import opened Wrappers
  import opened Store

  /** The columns of `doctors` the join selects. */
  datatype DoctorInfo = DoctorInfo(id: string, name: string, specialization: string, photo: Option<string>)

  /** The columns of `hospitals` the join selects. */
  datatype HospitalInfo = HospitalInfo(id: string, name: string, address: string)

  /** The appointment as attached to a payment. */
  datatype AppointmentSummary = AppointmentSummary(
    id: string,
    date: string,
    time: string,
    tokenNumber: Option<int>,
    doctor: Option<DoctorInfo>,
    hospital: Option<HospitalInfo>)

  /** A payment row with its joined data. */
  datatype EnrichedPayment = EnrichedPayment(payment: Payment, appointment: Option<AppointmentSummary>)

  /** A reply of the database client: the rows, or the error it reports. */
  datatype Fetched<T> = Rows(rows: seq<T>) | FetchError(message: string)

  /** `[...new Set(ids)]`: each id once, at its first occurrence. */
  function Distinct(s: seq<string>): (r: seq<string>)
    ensures |r| <= |s|
    ensures forall x :: x in r <==> x in s
    ensures forall i, j :: 0 <= i < j < |r| ==> r[i] != r[j]
  {
    if s == [] then []
    else
      var d := Distinct(s[..|s| - 1]);
      assert s == s[..|s| - 1] + [s[|s| - 1]];
      if s[|s| - 1] in d then d else d + [s[|s| - 1]]
  }

  function AppointmentIds(ps: seq<Payment>): (r: seq<string>)
    ensures |r| == |ps| && forall k :: 0 <= k < |ps| ==> r[k] == ps[k].appointmentId
  {
    if ps == [] then [] else [ps[0].appointmentId] + AppointmentIds(ps[1..])
  }

  /** `[...new Set(appointments.map(a => a.doctor_id))]`: the doctors to fetch, each once. */
  function DoctorIds(appts: seq<Appointment>): (r: seq<string>)
    ensures forall i, j :: 0 <= i < j < |r| ==> r[i] != r[j]
    ensures forall x :: x in r <==> exists k :: 0 <= k < |appts| && appts[k].doctorId == x
  {
    var ids := seq(|appts|, k requires 0 <= k < |appts| => appts[k].doctorId);
    assert forall k :: 0 <= k < |appts| ==> ids[k] == appts[k].doctorId;
    Distinct(ids)
  }

  /** `[...new Set(appointments.map(a => a.hospital_id))]`: the hospitals to fetch, each
      once. */
  function HospitalIds(appts: seq<Appointment>): (r: seq<string>)
    ensures forall i, j :: 0 <= i < j < |r| ==> r[i] != r[j]
    ensures forall x :: x in r <==> exists k :: 0 <= k < |appts| && appts[k].hospitalId == x
  {
    var ids := seq(|appts|, k requires 0 <= k < |appts| => appts[k].hospitalId);
    assert forall k :: 0 <= k < |appts| ==> ids[k] == appts[k].hospitalId;
    Distinct(ids)
  }

  /** The id list of the appointments query: every payment's appointment, once. */
  lemma AppointmentQueryIds(ps: seq<Payment>)
    ensures var q := Distinct(AppointmentIds(ps));
      && (forall i, j :: 0 <= i < j < |q| ==> q[i] != q[j])
      && (forall k :: 0 <= k < |ps| ==> ps[k].appointmentId in q)
      && (forall x :: x in q ==> exists k :: 0 <= k < |ps| && ps[k].appointmentId == x)
  {
    var ids := AppointmentIds(ps);
    forall k | 0 <= k < |ps| ensures ps[k].appointmentId in Distinct(ids) {
      assert ids[k] == ps[k].appointmentId;
    }
  }

  /** `appointments.find(a => a.id === id)`: the first row with that id. */
  function FindAppointment(rows: seq<Appointment>, id: string): (r: Option<Appointment>)
    ensures r.Some? <==> exists k :: 0 <= k < |rows| && rows[k].id == id
    ensures r.Some? ==> exists k :: 0 <= k < |rows| && rows[k] == r.value && r.value.id == id && forall j :: 0 <= j < k ==> rows[j].id != id
  {
    if rows == [] then None
    else if rows[0].id == id then Some(rows[0])
    else
      var r := FindAppointment(rows[1..], id);
      assert forall k :: 1 <= k < |rows| ==> rows[k] == rows[1..][k - 1];
      assert r.Some? ==> exists k :: 0 <= k < |rows[1..]| && rows[1..][k] == r.value && forall j :: 0 <= j < k ==> rows[1..][j].id != id;
      r
  }

  /** `doctors.find(d => d.id === id)` and `hospitals.find(h => h.id === id)`: a row
      whose id, as `idOf` reads it, is the one sought. */
  function FindById<T>(rows: seq<T>, idOf: T -> string, id: string): (r: Option<T>)
    ensures r.Some? <==> exists k :: 0 <= k < |rows| && idOf(rows[k]) == id
    ensures r.Some? ==> r.value in rows && idOf(r.value) == id
  {
    if rows == [] then None
    else if idOf(rows[0]) == id then Some(rows[0])
    else
      assert forall k :: 1 <= k < |rows| ==> rows[k] == rows[1..][k - 1];
      FindById(rows[1..], idOf, id)
  }

  /** The appointment's summary with its doctor and hospital, each `undefined` when not
      found. */
  function Summary(a: Appointment, doctors: seq<DoctorInfo>, hospitals: seq<HospitalInfo>): (s: AppointmentSummary)
    ensures s.id == a.id && s.date == a.date && s.time == a.time && s.tokenNumber == a.tokenNumber
    ensures s.doctor.Some? <==> exists k :: 0 <= k < |doctors| && doctors[k].id == a.doctorId
    ensures s.doctor.Some? ==> s.doctor.value in doctors && s.doctor.value.id == a.doctorId
    ensures s.hospital.Some? <==> exists k :: 0 <= k < |hospitals| && hospitals[k].id == a.hospitalId
    ensures s.hospital.Some? ==> s.hospital.value in hospitals && s.hospital.value.id == a.hospitalId
  {
    AppointmentSummary(a.id, a.date, a.time, a.tokenNumber, FindById(doctors, (d: DoctorInfo) => d.id, a.doctorId), FindById(hospitals, (h: HospitalInfo) => h.id, a.hospitalId))
  }

  /** One element of `payments.map(...)`: the payment's own fields unchanged, its
      appointment attached when one with its `appointment_id` was fetched. */
  function Enrich(p: Payment, appts: seq<Appointment>, doctors: seq<DoctorInfo>, hospitals: seq<HospitalInfo>): (e: EnrichedPayment)
    ensures e.payment == p
    ensures e.appointment.Some? <==> exists k :: 0 <= k < |appts| && appts[k].id == p.appointmentId
    ensures e.appointment.Some? ==> exists a :: a in appts && a.id == p.appointmentId && e.appointment.value == Summary(a, doctors, hospitals)
  {
    match FindAppointment(appts, p.appointmentId)
    case None => EnrichedPayment(p, None)
    case Some(a) => EnrichedPayment(p, Some(Summary(a, doctors, hospitals)))
  }

  function EnrichAll(ps: seq<Payment>, appts: seq<Appointment>, doctors: seq<DoctorInfo>, hospitals: seq<HospitalInfo>): (r: seq<EnrichedPayment>)
    ensures |r| == |ps|
    ensures forall k :: 0 <= k < |ps| ==> r[k] == Enrich(ps[k], appts, doctors, hospitals)
  {
    if ps == [] then [] else [Enrich(ps[0], appts, doctors, hospitals)] + EnrichAll(ps[1..], appts, doctors, hospitals)
  }

  /** `usePayments`' query. The replies are those of the payments query (already
      filtered by user and ordered), the appointments query and the doctor and hospital
      queries, whose errors fall back to `[]`. */
  function PaymentsOf(
    userId: Option<string>,
    paymentsReply: Fetched<Payment>,
    appointmentsReply: Fetched<Appointment>,
    doctorsReply: Fetched<DoctorInfo>,
    hospitalsReply: Fetched<HospitalInfo>): (r: Result<seq<EnrichedPayment>>)
    ensures !Truthy(userId) ==> r == Ok([])
    ensures Truthy(userId) && paymentsReply.FetchError? ==> r == Err(paymentsReply.message)
    ensures Truthy(userId) && paymentsReply == Rows([]) ==> r == Ok([])
    ensures Truthy(userId) && paymentsReply.Rows? && paymentsReply.rows != [] && appointmentsReply.FetchError? ==> r == Err(appointmentsReply.message)
    ensures r.Ok? && paymentsReply.Rows? && Truthy(userId) ==>
      && |r.value| == |paymentsReply.rows|
      && forall k :: 0 <= k < |r.value| ==> r.value[k].payment == paymentsReply.rows[k]
    ensures r.Ok? && r.value != [] ==> paymentsReply.Rows? && appointmentsReply.Rows?
    ensures r.Ok? && r.value != [] ==> forall k :: 0 <= k < |r.value| ==>
      r.value[k] == Enrich(paymentsReply.rows[k], appointmentsReply.rows, RowsOr(doctorsReply), RowsOr(hospitalsReply))
  {
    if !Truthy(userId) then Ok([])
    else match paymentsReply
      case FetchError(m) => Err(m)
      case Rows(ps) =>
        if ps == [] then Ok([])
        else match appointmentsReply
          case FetchError(m) => Err(m)
          case Rows(appts) => Ok(EnrichAll(ps, appts, RowsOr(doctorsReply), RowsOr(hospitalsReply)))
  }

  /** Every join partner attached to a payment is one the queries asked for: its
      appointment id is in the appointments query's id list, and its doctor and
      hospital ids are in the doctor and hospital id lists built from the fetched
      appointments. */
  lemma JoinedRowsWereQueried(
    userId: Option<string>,
    paymentsReply: Fetched<Payment>,
    appointmentsReply: Fetched<Appointment>,
    doctorsReply: Fetched<DoctorInfo>,
    hospitalsReply: Fetched<HospitalInfo>,
    k: nat)
    requires PaymentsOf(userId, paymentsReply, appointmentsReply, doctorsReply, hospitalsReply).Ok?
    requires k < |PaymentsOf(userId, paymentsReply, appointmentsReply, doctorsReply, hospitalsReply).value|
    ensures var e := PaymentsOf(userId, paymentsReply, appointmentsReply, doctorsReply, hospitalsReply).value[k];
      && paymentsReply.Rows? && appointmentsReply.Rows?
      && e.payment.appointmentId in Distinct(AppointmentIds(paymentsReply.rows))
      && (e.appointment.Some? && e.appointment.value.doctor.Some? ==>
            e.appointment.value.doctor.value.id in DoctorIds(appointmentsReply.rows))
      && (e.appointment.Some? && e.appointment.value.hospital.Some? ==>
            e.appointment.value.hospital.value.id in HospitalIds(appointmentsReply.rows))
  {
    var r := PaymentsOf(userId, paymentsReply, appointmentsReply, doctorsReply, hospitalsReply);
    var ps := paymentsReply.rows;
    assert r.value != [];
    assert r.value[k] == Enrich(ps[k], appointmentsReply.rows, RowsOr(doctorsReply), RowsOr(hospitalsReply));
    AppointmentQueryIds(ps);
    EnrichJoinsQueried(ps[k], appointmentsReply.rows, RowsOr(doctorsReply), RowsOr(hospitalsReply));
  }

  lemma EnrichJoinsQueried(p: Payment, appts: seq<Appointment>, doctors: seq<DoctorInfo>, hospitals: seq<HospitalInfo>)
    ensures var e := Enrich(p, appts, doctors, hospitals);
      && (e.appointment.Some? && e.appointment.value.doctor.Some? ==> e.appointment.value.doctor.value.id in DoctorIds(appts))
      && (e.appointment.Some? && e.appointment.value.hospital.Some? ==> e.appointment.value.hospital.value.id in HospitalIds(appts))
  {
    var e := Enrich(p, appts, doctors, hospitals);
    if e.appointment.Some? {
      var a :| a in appts && a.id == p.appointmentId && e.appointment.value == Summary(a, doctors, hospitals);
      var j :| 0 <= j < |appts| && appts[j] == a;
      assert appts[j].doctorId == a.doctorId && appts[j].hospitalId == a.hospitalId;
    }
  }

  /** `result.data || []`. */
  function RowsOr<T>(f: Fetched<T>): (r: seq<T>)
    ensures f.Rows? ==> r == f.rows
    ensures f.FetchError? ==> r == []
  {
    match f
    case Rows(rows) => rows
    case FetchError(_) => []
  }

  /** `usePaymentById`' query over the payments reply (`maybeSingle`: at most one row)
      and the appointments, doctors and hospitals tables, whose lookups ignore errors. */
  function PaymentById(
    paymentId: Option<string>,
    paymentReply: Fetched<Payment>,
    appointments: seq<Appointment>,
    doctors: seq<DoctorInfo>,
    hospitals: seq<HospitalInfo>): (r: Result<Option<EnrichedPayment>>)
    ensures !Truthy(paymentId) ==> r == Ok(None)
    ensures Truthy(paymentId) && paymentReply.FetchError? ==> r == Err(paymentReply.message)
    ensures Truthy(paymentId) && paymentReply == Rows([]) ==> r == Ok(None)
    ensures r.Ok? && r.value.Some? ==> paymentReply.Rows? && paymentReply.rows != []
    ensures r.Ok? && r.value.Some? ==> r.value.value == Enrich(paymentReply.rows[0], appointments, doctors, hospitals)
    ensures r.Ok? && r.value.Some? && r.value.value.appointment.None? ==> forall a :: a in appointments ==> a.id != paymentReply.rows[0].appointmentId
  {
    if !Truthy(paymentId) then Ok(None)
    else match paymentReply
      case FetchError(m) => Err(m)
      case Rows(rows) =>
        if rows == [] then Ok(None)
        else Ok(Some(Enrich(rows[0], appointments, doctors, hospitals)))
  }

  /** The two hooks attach the same data to a payment when the list's replies hold the
      rows the single lookup reads. */
  lemma ListAgreesWithLookup(
    userId: string, p: Payment, ps: seq<Payment>, k: nat,
    appts: seq<Appointment>, doctors: seq<DoctorInfo>, hospitals: seq<HospitalInfo>)
    requires userId != "" && k < |ps| && ps[k] == p
    ensures var list := PaymentsOf(Some(userId), Rows(ps), Rows(appts), Rows(doctors), Rows(hospitals));
      var one := PaymentById(Some(p.id), Rows([p]), appts, doctors, hospitals);
      p.id != "" ==> list.Ok? && one == Ok(Some(list.value[k]))
  {
  }
}
