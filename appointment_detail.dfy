/** The appointment detail page: when it fetches, what it shows, and the cancel flow. */
module AppointmentDetail {
  import opened Wrappers
  import opened Store
  import Appointments

  /** The page fetches only once both the signed-in user and the route id are present. */
  function ShouldFetch(user: Option<string>, id: Option<string>): (fetch: bool)
    ensures fetch <==> user.Some? && id.Some? && id.value != ""
  {
    user.Some? && Truthy(id)
  }

  /** Cancel and Reschedule are offered for a scheduled or confirmed appointment only:
      never once it is in consultation, completed, cancelled or in another state. */
  function CanCancel(s: Status): (offered: bool)
    ensures offered <==> s.Scheduled? || s.Confirmed?
    ensures s.InConsultation? || s.Completed? || s.Cancelled? || s.Other? ==> !offered
  {
    s == Scheduled || s == Confirmed
  }

  /** What the page renders. */
  datatype View =
    | Loading
    | NotFound
    | Details(status: Status, token: Option<int>, queuePosition: Option<int>, offersCancel: bool)

  /** The page state: the three fetched rows (doctor and hospital only as "loaded") and
      the two flags. */
  class DetailPage {
    var appointment: Option<Appointment>
    var doctorLoaded: bool
    var hospitalLoaded: bool
    var loading: bool
    var cancelling: bool

    constructor ()
      ensures appointment == None && !doctorLoaded && !hospitalLoaded && loading && !cancelling
      ensures Render() == Loading
    {
      appointment := None;
      doctorLoaded := false;
      hospitalLoaded := false;
      loading := true;
      cancelling := false;
    }

    /** The render: "Loading..." while loading, "Appointment not found" unless all three
        rows are loaded; otherwise the token card when the token is truthy, the queue
        position inside it when that is truthy too, and the cancel controls by status. */
    function Render(): (v: View)
      reads this
      ensures loading <==> v == Loading
      ensures v == NotFound <==> !loading && !(appointment.Some? && doctorLoaded && hospitalLoaded)
      ensures v.Details? ==> appointment.Some? && v.status == appointment.value.status
      ensures v.Details? ==> (v.token.Some? <==> TruthyInt(appointment.value.tokenNumber))
      ensures v.Details? && v.token.Some? ==> v.token == appointment.value.tokenNumber
      ensures v.Details? ==> (v.queuePosition.Some? <==>
        TruthyInt(appointment.value.tokenNumber) && TruthyInt(appointment.value.queuePosition))
      ensures v.Details? && v.queuePosition.Some? ==> v.queuePosition == appointment.value.queuePosition
      ensures v.Details? ==> (v.offersCancel <==> CanCancel(appointment.value.status))
    {
      if loading then Loading
      else if !(appointment.Some? && doctorLoaded && hospitalLoaded) then NotFound
      else
        var a := appointment.value;
        Details(a.status,
          if TruthyInt(a.tokenNumber) then a.tokenNumber else None,
          if TruthyInt(a.tokenNumber) && TruthyInt(a.queuePosition) then a.queuePosition else None,
          CanCancel(a.status))
    }

    /** `fetchAppointmentDetails`: the appointment, then its doctor, then its hospital; the
        first failure stops the chain (and shows an error toast, the result `false`);
        `loading` is cleared on every path. */
    method FetchDetails(appt: Result<Appointment>, doctorFound: bool, hospitalFound: bool) returns (ok: bool)
      modifies this`appointment, this`doctorLoaded, this`hospitalLoaded, this`loading
      ensures !loading
      ensures ok <==> appt.Ok? && doctorFound && hospitalFound
      ensures appointment == (if appt.Ok? then Some(appt.value) else old(appointment))
      ensures doctorLoaded == (if appt.Ok? && doctorFound then true else old(doctorLoaded))
      ensures hospitalLoaded == (if ok then true else old(hospitalLoaded))
    {
      ok := false;
      if appt.Ok? {
        appointment := Some(appt.value);
        if doctorFound {
          doctorLoaded := true;
          if hospitalFound {
            hospitalLoaded := true;
            ok := true;
          }
        }
      }
      loading := false;
    }

    /** The page's effect on `[id, user]`: the details are fetched only when both are
        present; otherwise nothing changes, so a page that has not fetched keeps
        rendering "Loading...". */
    method LoadDetails(user: Option<string>, id: Option<string>, appt: Result<Appointment>, doctorFound: bool, hospitalFound: bool)
      returns (fetched: bool)
      modifies this`appointment, this`doctorLoaded, this`hospitalLoaded, this`loading
      ensures fetched <==> ShouldFetch(user, id)
      ensures !fetched ==> unchanged(this)
      ensures !fetched ==> Render() == old(Render())
      ensures fetched ==> !loading && appointment == (if appt.Ok? then Some(appt.value) else old(appointment))
      ensures fetched ==> doctorLoaded == (if appt.Ok? && doctorFound then true else old(doctorLoaded))
      ensures fetched ==> hospitalLoaded == (if appt.Ok? && doctorFound && hospitalFound then true else old(hospitalLoaded))
    {
      fetched := ShouldFetch(user, id);
      if fetched {
        var _ := FetchDetails(appt, doctorFound, hospitalFound);
      }
    }

    /** `handleCancelAppointment`: writes `cancelled` for this id; navigates to
        `/appointments` only when the update succeeded; `cancelling` is false afterwards
        on both paths. */
    method HandleCancel(db: Database, id: string, updateError: Option<Thrown>) returns (navigateTo: Option<string>)
      requires db.Valid()
      modifies this`cancelling, db`appointments
      ensures db.Valid() && !cancelling
      ensures updateError.None? ==>
        navigateTo == Some("/appointments") && db.appointments == WithStatus(old(db.appointments), id, Cancelled)
      ensures updateError.Some? ==> navigateTo == None && db.appointments == old(db.appointments)
    {
      cancelling := true;
      var err := Appointments.CancelAppointment(db, id, updateError);
      navigateTo := if err.None? then Some("/appointments") else None;
      cancelling := false;
    }
  }

  /** A new page whose effect ran without a user or an id stays on "Loading...". */
  method OpenWithoutIds(user: Option<string>, id: Option<string>, appt: Result<Appointment>)
    returns (v: View)
    requires !ShouldFetch(user, id)
    ensures v == Loading
  {
    var page := new DetailPage();
    var fetched := page.LoadDetails(user, id, appt, true, true);
    v := page.Render();
  }

  /** A freshly loaded page with all three rows offers cancelling exactly for a scheduled
      or confirmed appointment. */
  lemma LoadedPageOffersCancel(p: DetailPage, a: Appointment)
    requires !p.loading && p.appointment == Some(a) && p.doctorLoaded && p.hospitalLoaded
    ensures p.Render().Details? && (p.Render().offersCancel <==> a.status == Scheduled || a.status == Confirmed)
  {
  }
}
