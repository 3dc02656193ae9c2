/** The booking page: the form state, the selectable slots and the guard chain of
    `handleBooking` that builds the data carried to the payment page. */
module Booking {
  import opened Wrappers
  import opened Strings

  /** A `get_available_slots` entry. */
  datatype Slot = Slot(slotTime: string, isBooked: bool)

  datatype Hospital = Hospital(id: string, name: string)

  /** The doctor row with its joined hospital. */
  datatype Doctor = Doctor(name: string, specialization: string, consultationFee: int, hospital: Option<Hospital>)

  /** The `bookingData` passed on to the payment page. */
  datatype BookingData = BookingData(
    doctorId: Option<string>,
    doctorName: string,
    doctorSpecialization: string,
    hospitalId: string,
    hospitalName: string,
    appointmentDate: string,
    appointmentTime: string,
    appointmentType: string,
    specialInstructions: string,
    consultationFee: int)

  datatype BookingOutcome = RedirectToAuth | Incomplete | ToPayment(data: BookingData)

  /** `toISOString().split('T')[0]`: the calendar date of an ISO timestamp. */
  function DatePart(iso: string): (d: string)
    ensures |d| <= |iso| && d == iso[..|d|] && 'T' !in d
    ensures |d| < |iso| ==> iso[|d|] == 'T'
  {
    SplitHead(iso, 'T');
    Split(iso, 'T')[0]
  }

  /** The form. `selectedDate` is the ISO timestamp of the picked day. */
  class BookingForm {
    var selectedDate: Option<string>
    var selectedTime: string
    var appointmentType: string
    var specialInstructions: string

    /** No date or time yet; the type defaults to a consultation. */
    constructor ()
      ensures selectedDate == None && selectedTime == ""
      ensures appointmentType == "consultation" && specialInstructions == ""
    {
      selectedDate := None;
      selectedTime := "";
      appointmentType := "consultation";
      specialInstructions := "";
    }

    method SelectDate(iso: string)
      modifies this`selectedDate
      ensures selectedDate == Some(iso)
    {
      selectedDate := Some(iso);
    }

    /** A booked slot's button is disabled: clicking it changes nothing. Any other slot
        becomes the selected time. */
    method SelectSlot(slot: Slot)
      modifies this`selectedTime
      ensures selectedTime == (if slot.isBooked then old(selectedTime) else slot.slotTime)
      ensures selectedTime == LastFreeTime([slot], old(selectedTime))
    {
      if !slot.isBooked {
        selectedTime := slot.slotTime;
      }
    }

    method SelectType(t: string)
      modifies this`appointmentType
      ensures appointmentType == t
    {
      appointmentType := t;
    }

    method SetInstructions(t: string)
      modifies this`specialInstructions
      ensures specialInstructions == t
    {
      specialInstructions := t;
    }

    /** "Proceed to Payment" is disabled until both a date and a time are chosen. */
    function ProceedDisabled(): (disabled: bool)
      reads this
      ensures !disabled <==> selectedDate.Some? && selectedTime != ""
    {
      selectedDate.None? || selectedTime == ""
    }

    /** `handleBooking`: without a user, a doctor or its hospital, go to `/auth`; without
        a date and a time, the "Incomplete Information" toast; otherwise the booking data. */
    function HandleBooking(user: Option<string>, doctorId: Option<string>, doctor: Option<Doctor>): (r: BookingOutcome)
      reads this
      ensures r == RedirectToAuth <==> user.None? || doctor.None? || doctor.value.hospital.None?
      ensures r == Incomplete <==> !(user.None? || doctor.None? || doctor.value.hospital.None?) && ProceedDisabled()
      ensures r.ToPayment? ==>
        var d := doctor.value;
        && r.data.doctorId == doctorId
        && r.data.doctorName == d.name && r.data.doctorSpecialization == d.specialization
        && r.data.hospitalId == d.hospital.value.id && r.data.hospitalName == d.hospital.value.name
        && r.data.appointmentDate == DatePart(selectedDate.value)
        && r.data.appointmentTime == selectedTime && r.data.appointmentType == appointmentType
        && r.data.specialInstructions == specialInstructions && r.data.consultationFee == d.consultationFee
    {
      if user.None? || doctor.None? || doctor.value.hospital.None? then RedirectToAuth
      else if selectedDate.None? || selectedTime == "" then Incomplete
      else
        var d := doctor.value;
        var h := d.hospital.value;
        ToPayment(BookingData(doctorId, d.name, d.specialization, h.id, h.name,
          DatePart(selectedDate.value), selectedTime, appointmentType, specialInstructions, d.consultationFee))
    }
  }

  /** The selected time after clicking `clicks` in order, starting from `start`. */
  function LastFreeTime(clicks: seq<Slot>, start: string): string {
    if clicks == [] then start
    else
      var last := clicks[|clicks| - 1];
      if last.isBooked then LastFreeTime(clicks[..|clicks| - 1], start) else last.slotTime
  }

  /** A booked slot can never become the selected time: after any sequence of slot clicks
      the selected time is still the starting one or the time of a free slot that was
      clicked. */
  lemma {:induction false} OnlyFreeSlotsSelected(clicks: seq<Slot>, start: string)
    ensures var t := LastFreeTime(clicks, start);
      t == start || exists k :: 0 <= k < |clicks| && !clicks[k].isBooked && clicks[k].slotTime == t
  {
    if clicks != [] {
      var last := clicks[|clicks| - 1];
      if last.isBooked {
        OnlyFreeSlotsSelected(clicks[..|clicks| - 1], start);
        var t := LastFreeTime(clicks[..|clicks| - 1], start);
        if t != start {
          var k :| 0 <= k < |clicks| - 1 && !clicks[..|clicks| - 1][k].isBooked && clicks[..|clicks| - 1][k].slotTime == t;
          assert clicks[k] == clicks[..|clicks| - 1][k];
        }
      } else {
        assert clicks[|clicks| - 1] == last;
      }
    }
  }
}
