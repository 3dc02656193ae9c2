/** The appointment hooks of the patient application: the queries by user and by id with
    their guards, booking an appointment directly (status `scheduled`) and cancelling. */
module Appointments {
  import opened Wrappers
  import opened Store

  /** `useAppointments`: the rows of one user. An absent or empty user id throws before
      the query; `queryError` is the error the query returns, which is thrown. (The
      joined doctor and hospital rows and the ordering by date are not modelled.) */
  function AppointmentsOfUser(db: Database, userId: Option<string>, queryError: Option<string>): (r: Result<set<Appointment>>)
    reads db
    ensures !Truthy(userId) ==> r == Err("User ID is required")
    ensures Truthy(userId) && queryError.Some? ==> r == Err(queryError.value)
    ensures r.Ok? <==> Truthy(userId) && queryError.None?
    ensures r.Ok? ==> forall a :: a in r.value <==> a in db.appointments.Values && a.userId == userId.value
  {
    if !Truthy(userId) then Err("User ID is required")
    else if queryError.Some? then Err(queryError.value)
    else Ok(set a | a in db.appointments.Values && a.userId == userId.value)
  }

  /** `useAppointmentById`: one row; an absent id throws, a failed query
      (`queryError`) throws its error, and a missing row is the error of `.single()`. */
  function AppointmentById(db: Database, id: Option<string>, queryError: Option<string>): (r: Result<Appointment>)
    reads db
    requires db.Valid()
    ensures !Truthy(id) ==> r == Err("Appointment ID is required")
    ensures Truthy(id) && queryError.Some? ==> r == Err(queryError.value)
    ensures Truthy(id) && queryError.None? && id.value !in db.appointments ==> r == Err(NoSingleRow)
    ensures r.Ok? <==> Truthy(id) && queryError.None? && id.value in db.appointments
    ensures r.Ok? ==> r.value == db.appointments[id.value] && r.value.id == id.value
  {
    if !Truthy(id) then Err("Appointment ID is required")
    else if queryError.Some? then Err(queryError.value)
    else if id.value !in db.appointments then Err(NoSingleRow)
    else Ok(db.appointments[id.value])
  }

  /** The argument of `useCreateAppointment`. */
  datatype NewAppointment = NewAppointment(
    doctorId: string,
    hospitalId: string,
    date: string,
    time: string,
    apptType: string,
    specialInstructions: Option<string>)

  /** The row that is inserted: the input's fields, the user, the token and `scheduled`. */
  function ScheduledRow(id: string, user: string, input: NewAppointment, tokenData: Option<int>): (a: Appointment)
    ensures a.id == id && a.userId == user && a.status == Scheduled
    ensures a.tokenNumber == Some(IntOr(tokenData, 1)) && a.tokenNumber != Some(0)
    ensures a.doctorId == input.doctorId && a.hospitalId == input.hospitalId && a.date == input.date
    ensures a.time == input.time && a.apptType == input.apptType
    ensures a.specialInstructions == input.specialInstructions
  {
    Appointment(id, user, input.doctorId, input.hospitalId, input.date, input.time, input.apptType,
      Scheduled, Some(IntOr(tokenData, 1)), None, input.specialInstructions, None, None)
  }

  /** `useCreateAppointment`'s mutation. Without a user it throws before anything else.
      An error of the token procedure is not checked: its data is then null and the
      token falls back to 1. */
  method CreateAppointment(db: Database, user: Option<string>, input: NewAppointment, tokenData: Option<int>, insert: InsertReply)
    returns (r: Result<Appointment>)
    requires db.Valid()
    requires insert.Inserted? ==> insert.newId !in db.appointments
    modifies db`appointments
    ensures db.Valid()
    ensures user.None? ==> r == Err("User not authenticated")
    ensures user.Some? && insert.InsertFailed? ==> r == Err(ThrownMessage(insert.error))
    ensures r.Ok? <==> user.Some? && insert.Inserted?
    ensures r.Ok? ==> r.value == ScheduledRow(insert.newId, user.value, input, tokenData)
    ensures r.Ok? ==> db.appointments == old(db.appointments)[insert.newId := r.value]
    ensures r.Err? ==> db.appointments == old(db.appointments)
    ensures r.Ok? && r.value.id != "" ==> AppointmentById(db, Some(r.value.id), None) == Ok(r.value)
    ensures r.Ok? && r.value.userId != "" ==> r.value in AppointmentsOfUser(db, user, None).value
  {
    if user.None? {
      return Err("User not authenticated");
    }
    if insert.InsertFailed? {
      return Err(ThrownMessage(insert.error));
    }
    var row := ScheduledRow(insert.newId, user.value, input, tokenData);
    db.appointments := db.appointments[row.id := row];
    assert db.appointments[row.id] == row;
    r := Ok(row);
  }

  /** `useCancelAppointment`'s mutation: the row with this id becomes `cancelled`, whatever
      its status was; no row matching is not an error. A failed update changes nothing. */
  method CancelAppointment(db: Database, id: string, updateError: Option<Thrown>) returns (r: Option<string>)
    requires db.Valid()
    modifies db`appointments
    ensures db.Valid()
    ensures updateError.Some? ==> r == Some(ThrownMessage(updateError.value)) && db.appointments == old(db.appointments)
    ensures updateError.None? ==> r == None && db.appointments == WithStatus(old(db.appointments), id, Cancelled)
    ensures updateError.None? && id != "" && id in old(db.appointments) ==>
      AppointmentById(db, Some(id), None) == Ok(old(db.appointments)[id].(status := Cancelled))
  {
    if updateError.Some? {
      return Some(ThrownMessage(updateError.value));
    }
    WithStatusKeyed(db.appointments, id, Cancelled);
    db.appointments := WithStatus(db.appointments, id, Cancelled);
    r := None;
  }
}
