/** The doctor dashboard: which action each queue entry offers, the queue rendering, and
    the state of the "complete consultation" dialog. */
module DoctorDashboard {
  import opened Wrappers
  import opened Store
  import DoctorQueue

  /** The button next to a queue entry. */
  datatype QueueAction = Start | Complete | NoAction

  /** Start for a scheduled or confirmed entry, Complete for one in consultation, and
      nothing for any other status. */
  function ActionFor(s: Status): (a: QueueAction)
    ensures a == Start <==> s == Scheduled || s == Confirmed
    ensures a == Complete <==> s == InConsultation
    ensures a == NoAction <==> !(s == Scheduled || s == Confirmed || s == InConsultation)
  {
    if s == Scheduled || s == Confirmed then Start
    else if s == InConsultation then Complete
    else NoAction
  }

  /** An entry returned by `get_doctor_queue`. */
  datatype QueueItem = QueueItem(
    appointmentId: string,
    tokenNumber: Option<int>,
    patientName: Option<string>,
    tokenType: Option<string>,
    time: string,
    status: Status)

  datatype ItemView = ItemView(patient: string, priority: bool, action: QueueAction)

  function ViewItem(item: QueueItem): (v: ItemView)
    ensures v.priority <==> item.tokenType == Some("priority")
    ensures v.patient == (if Truthy(item.patientName) then item.patientName.value else "Unknown")
    ensures v.action == ActionFor(item.status)
  {
    ItemView(StringOr(item.patientName, "Unknown"), item.tokenType == Some("priority"), ActionFor(item.status))
  }

  datatype QueueView = LoadingQueue | EmptyQueue | Entries(items: seq<ItemView>)

  /** The queue card: a loading line, an empty line, or one view per entry in order. The
      badge above it shows `|queue|`. */
  function ViewQueue(isLoading: bool, queue: seq<QueueItem>): (v: QueueView)
    ensures isLoading <==> v == LoadingQueue
    ensures v == EmptyQueue <==> !isLoading && queue == []
    ensures v.Entries? ==> |v.items| == |queue| && forall k :: 0 <= k < |queue| ==> v.items[k] == ViewItem(queue[k])
  {
    if isLoading then LoadingQueue
    else if queue == [] then EmptyQueue
    else Entries(seq(|queue|, k requires 0 <= k < |queue| => ViewItem(queue[k])))
  }

  /** The dashboard's dialog state: the appointment being completed, the follow-up date
      field and the notes field. */
  class Dashboard {
    var completeDialog: Option<string>
    var followUpDate: string
    var consultationNotes: string

    constructor ()
      ensures completeDialog == None && followUpDate == "" && consultationNotes == ""
    {
      completeDialog := None;
      followUpDate := "";
      consultationNotes := "";
    }

    /** The dialog is open while an appointment id is selected. */
    predicate DialogOpen()
      reads this
    {
      Truthy(completeDialog)
    }

    /** The Complete button of an entry opens the dialog for it. */
    method OpenComplete(appointmentId: string)
      modifies this`completeDialog
      ensures completeDialog == Some(appointmentId)
    {
      completeDialog := Some(appointmentId);
    }

    /** Cancel, or closing the dialog: the selection is cleared, the fields are kept. */
    method CloseDialog()
      modifies this`completeDialog
      ensures completeDialog == None
    {
      completeDialog := None;
    }

    method SetFollowUpDate(v: string)
      modifies this`followUpDate
      ensures followUpDate == v
    {
      followUpDate := v;
    }

    method SetConsultationNotes(v: string)
      modifies this`consultationNotes
      ensures consultationNotes == v
    {
      consultationNotes := v;
    }

    /** `handleStartConsultation`: requests `in_consultation` for the entry, with no
        follow-up date and no notes. */
    method HandleStart(db: Database, appointmentId: string, updateError: Option<Thrown>) returns (r: Option<string>)
      requires db.Valid()
      modifies db`appointments
      ensures db.Valid()
      ensures updateError.None? ==> db.appointments == WithStatus(old(db.appointments), appointmentId, InConsultation)
      ensures updateError.Some? ==> db.appointments == old(db.appointments)
      ensures r.Some? <==> updateError.Some?
    {
      r := DoctorQueue.UpdateConsultationStatus(db, appointmentId, InConsultation, None, None, updateError);
      if updateError.None? && appointmentId in old(db.appointments) {
        DoctorQueue.StatusOnlyPatch(old(db.appointments)[appointmentId], InConsultation);
      }
    }

    /** `handleCompleteConsultation`: nothing without a selection; otherwise `completed`
        with the follow-up date and the notes when they are not empty. Only a successful
        update clears the selection and both fields. */
    method HandleComplete(db: Database, updateError: Option<Thrown>) returns (r: Option<string>)
      requires db.Valid()
      modifies this, db`appointments
      ensures db.Valid()
      ensures !old(DialogOpen()) ==>
        r == None && db.appointments == old(db.appointments)
        && completeDialog == old(completeDialog) && followUpDate == old(followUpDate)
        && consultationNotes == old(consultationNotes)
      ensures old(DialogOpen()) && updateError.Some? ==>
        r == Some(ThrownMessage(updateError.value)) && db.appointments == old(db.appointments)
        && completeDialog == old(completeDialog) && followUpDate == old(followUpDate)
        && consultationNotes == old(consultationNotes)
      ensures old(DialogOpen()) && updateError.None? ==>
        var id := old(completeDialog).value;
        var patch := DoctorQueue.BuildStatusPatch(Completed, Some(old(followUpDate)), Some(old(consultationNotes)));
        && r == None
        && db.appointments == (if id in old(db.appointments)
                               then old(db.appointments)[id := DoctorQueue.ApplyPatch(old(db.appointments)[id], patch)]
                               else old(db.appointments))
        && completeDialog == None && followUpDate == "" && consultationNotes == ""
    {
      if !Truthy(completeDialog) {
        return None;
      }
      var follow := if followUpDate == "" then None else Some(followUpDate);
      var notes := if consultationNotes == "" then None else Some(consultationNotes);
      r := DoctorQueue.UpdateConsultationStatus(db, completeDialog.value, Completed, follow, notes, updateError);
      if r.None? {
        completeDialog := None;
        followUpDate := "";
        consultationNotes := "";
      }
    }
  }
}
