/** The doctor-side hooks: the queue query and doctor lookup guards, and the consultation
    status update, whose patch carries the follow-up date and the notes only when they
    are given. */
module DoctorQueue {
  import opened Wrappers
  import opened Store

  /** The arguments passed to `get_doctor_queue`: the doctor and the date, which defaults
      to today's date (an input here). An absent doctor id throws. */
  function QueueArguments(doctorId: Option<string>, date: Option<string>, today: string): (r: Result<(string, string)>)
    ensures r.Err? <==> !Truthy(doctorId)
    ensures r.Err? ==> r.msg == "Doctor ID required"
    ensures r.Ok? ==> r.value.0 == doctorId.value
    ensures r.Ok? ==> r.value.1 == (if Truthy(date) then date.value else today)
  {
    if !Truthy(doctorId) then Err("Doctor ID required") else Ok((doctorId.value, StringOr(date, today)))
  }

  /** A `doctors` row, as far as the lookup by e-mail needs it. */
  datatype Doctor = Doctor(id: string, email: string)

  function CountEmail(doctors: seq<Doctor>, email: string): (n: nat)
    ensures n <= |doctors|
    ensures n == 0 <==> forall k :: 0 <= k < |doctors| ==> doctors[k].email != email
  {
    if doctors == [] then 0
    else (if doctors[0].email == email then 1 else 0) + CountEmail(doctors[1..], email)
  }

  function FirstWithEmail(doctors: seq<Doctor>, email: string): (d: Doctor)
    requires CountEmail(doctors, email) > 0
    ensures d in doctors && d.email == email
  {
    if doctors[0].email == email then doctors[0] else FirstWithEmail(doctors[1..], email)
  }

  /** `useDoctorByEmail`: `.maybeSingle()` gives null for no match, the row for one
      match, and an error for several. An absent e-mail throws, and so does a failed
      query (`queryError`, the error the client returns). */
  function DoctorByEmail(doctors: seq<Doctor>, email: Option<string>, queryError: Option<string>): (r: Result<Option<Doctor>>)
    ensures !Truthy(email) ==> r == Err("Email required")
    ensures Truthy(email) && queryError.Some? ==> r == Err(queryError.value)
    ensures Truthy(email) && queryError.None? ==>
      (r == Ok(None) <==> forall k :: 0 <= k < |doctors| ==> doctors[k].email != email.value)
    ensures Truthy(email) && queryError.None? ==> (r.Err? <==> CountEmail(doctors, email.value) > 1)
    ensures Truthy(email) && queryError.None? && r.Err? ==> r.msg == NoSingleRow
    ensures r.Ok? && r.value.Some? ==> r.value.value in doctors && r.value.value.email == email.value
  {
    if !Truthy(email) then Err("Email required")
    else if queryError.Some? then Err(queryError.value)
    else
      var n := CountEmail(doctors, email.value);
      if n == 0 then Ok(None)
      else if n == 1 then Ok(Some(FirstWithEmail(doctors, email.value)))
      else Err(NoSingleRow)
  }

  /** The `updateData` object: always the status, the follow-up date and the notes only
      when truthy. */
  datatype StatusPatch = StatusPatch(status: Status, followUpDate: Option<string>, consultationNotes: Option<string>)

  function BuildStatusPatch(status: Status, followUpDate: Option<string>, notes: Option<string>): (p: StatusPatch)
    ensures p.status == status
    ensures p.followUpDate.Some? <==> Truthy(followUpDate)
    ensures p.consultationNotes.Some? <==> Truthy(notes)
    ensures p.followUpDate.Some? ==> p.followUpDate == followUpDate
    ensures p.consultationNotes.Some? ==> p.consultationNotes == notes
  {
    StatusPatch(status,
      if Truthy(followUpDate) then followUpDate else None,
      if Truthy(notes) then notes else None)
  }

  /** A row after `update(patch)`: the columns the patch carries are replaced, every
      other column is kept. */
  function ApplyPatch(a: Appointment, p: StatusPatch): (b: Appointment)
    ensures b.status == p.status
    ensures b.followUpDate == (if p.followUpDate.Some? then p.followUpDate else a.followUpDate)
    ensures b.consultationNotes == (if p.consultationNotes.Some? then p.consultationNotes else a.consultationNotes)
    ensures b == a.(status := b.status, followUpDate := b.followUpDate, consultationNotes := b.consultationNotes)
  {
    a.(status := p.status,
       followUpDate := if p.followUpDate.Some? then p.followUpDate else a.followUpDate,
       consultationNotes := if p.consultationNotes.Some? then p.consultationNotes else a.consultationNotes)
  }

  /** Applying the same patch twice is applying it once. */
  lemma ApplyPatchIdempotent(a: Appointment, p: StatusPatch)
    ensures ApplyPatch(ApplyPatch(a, p), p) == ApplyPatch(a, p)
  {
  }

  /** A patch with no follow-up date and no notes is a plain status write. */
  lemma StatusOnlyPatch(a: Appointment, s: Status)
    ensures ApplyPatch(a, BuildStatusPatch(s, None, None)) == a.(status := s)
  {
  }

  /** `useUpdateConsultationStatus`'s mutation: the row with this id is patched whatever
      its current status; no matching row is not an error; a failed update changes
      nothing. */
  method UpdateConsultationStatus(
    db: Database, appointmentId: string, status: Status, followUpDate: Option<string>,
    notes: Option<string>, updateError: Option<Thrown>)
    returns (r: Option<string>)
    requires db.Valid()
    modifies db`appointments
    ensures db.Valid()
    ensures db.appointments.Keys == old(db.appointments).Keys
    ensures updateError.Some? ==> r == Some(ThrownMessage(updateError.value)) && db.appointments == old(db.appointments)
    ensures updateError.None? ==> r == None
    ensures updateError.None? && appointmentId in old(db.appointments) ==>
      db.appointments == old(db.appointments)[appointmentId :=
        ApplyPatch(old(db.appointments)[appointmentId], BuildStatusPatch(status, followUpDate, notes))]
    ensures appointmentId !in old(db.appointments) ==> db.appointments == old(db.appointments)
    ensures forall k :: k in old(db.appointments) && k != appointmentId ==> db.appointments[k] == old(db.appointments)[k]
  {
    if updateError.Some? {
      return Some(ThrownMessage(updateError.value));
    }
    if appointmentId in db.appointments {
      var patch := BuildStatusPatch(status, followUpDate, notes);
      db.appointments := db.appointments[appointmentId := ApplyPatch(db.appointments[appointmentId], patch)];
    }
    r := None;
  }
}
