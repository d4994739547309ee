/**
 * The Appointment record of `apps/appointments/models.py` and its display
 * strings. Each appointment holds exactly one doctor reference and exactly
 * one patient reference; the scheduled time is an instant (timezone handling
 * is not modelled), and its text rendering is supplied by the caller.
 */
module AppointmentModels {
  import opened Wrappers
  import opened UserModels

  type AppointmentId = nat

  datatype Appointment = Appointment(
    id: AppointmentId,
    patient: PatientId,
    doctor: DoctorId,
    scheduledAt: int,
    isCompleted: bool)

  /** A new row: `is_completed` takes its default, false, when it is not given. */
  function NewAppointment(id: AppointmentId, patient: PatientId, doctor: DoctorId,
                          scheduledAt: int, isCompleted: Option<bool>): (a: Appointment)
    ensures a.id == id && a.patient == patient && a.doctor == doctor && a.scheduledAt == scheduledAt
    ensures a.isCompleted <==> isCompleted == Some(true)
  {
    Appointment(id, patient, doctor, scheduledAt, if isCompleted.Some? then isCompleted.value else false)
  }

  const CompletedWord := "Completed"
  const PendingWord := "Pending"
  const UnknownDoctor := "Unknown Doctor"
  const UnknownPatient := "Unknown Patient"

  /** The status word of `details`. */
  function StatusWord(isCompleted: bool): (w: string)
    ensures w == CompletedWord <==> isCompleted
    ensures w == PendingWord <==> !isCompleted
  {
    if isCompleted then CompletedWord else PendingWord
  }

  /** Python's `name or fallback` on strings: an empty name is falsy. */
  function OrFallback(name: string, fallback: string): (r: string)
    requires fallback != ""
    ensures r != ""
    ensures name != "" ==> r == name
    ensures name == "" ==> r == fallback
  {
    if name != "" then name else fallback
  }

  /** The doctor's name in both strings: the linked user's last name, or "Unknown Doctor". */
  function DoctorName(doctorLastName: string): (r: string)
    ensures r != ""
    ensures r == (if doctorLastName == "" then UnknownDoctor else doctorLastName)
  {
    OrFallback(doctorLastName, UnknownDoctor)
  }

  /** The patient's name in both strings: the linked user's full name, or "Unknown Patient". */
  function PatientName(patientFullName: string): (r: string)
    ensures r != ""
    ensures r == (if patientFullName == "" then UnknownPatient else patientFullName)
  {
    OrFallback(patientFullName, UnknownPatient)
  }

  /** `Appointment.__str__`. */
  function AppointmentStr(doctorLastName: string, patientFullName: string, scheduledText: string): (s: string)
    ensures var head, patient := "Appointment with Dr. " + DoctorName(doctorLastName), PatientName(patientFullName);
      |s| == |head| + 5 + |patient| + 4 + |scheduledText|
      && s[..|head|] == head
      && s[|head|..|head| + 5] == " for "
      && s[|head| + 5..|head| + 5 + |patient|] == patient
      && s[|head| + 5 + |patient|..|head| + 9 + |patient|] == " on "
      && s[|s| - |scheduledText|..] == scheduledText
  {
    "Appointment with Dr. " + DoctorName(doctorLastName) + " for " + PatientName(patientFullName)
      + " on " + scheduledText
  }

  /** The closing part of `Appointment.details`, which carries the status word. */
  function StatusSuffix(isCompleted: bool): string {
    ". Status: " + StatusWord(isCompleted) + "."
  }

  /**
   * `Appointment.details`; `strftime('%b %d, %Y %H:%M')` belongs to Python and
   * its output is given as `scheduledText`.
   */
  function AppointmentDetails(a: Appointment, doctorLastName: string, patientFullName: string,
                              scheduledText: string): (s: string)
    ensures |s| == |AppointmentStr(doctorLastName, patientFullName, scheduledText)| + |StatusSuffix(a.isCompleted)|
    ensures var head := AppointmentStr(doctorLastName, patientFullName, scheduledText);
      |s| >= |head| && s[..|head|] == head
    ensures var tail := StatusSuffix(a.isCompleted);
      |s| >= |tail| && s[|s| - |tail|..] == tail
  {
    "Appointment with Dr. " + DoctorName(doctorLastName) + " for " + PatientName(patientFullName)
      + " on " + scheduledText + StatusSuffix(a.isCompleted)
  }

  /** Reads the completion status back from a details string, if it ends with a status. */
  function DetailsStatus(s: string): (r: Option<bool>)
    ensures r == Some(true) ==> |s| >= |StatusSuffix(true)| && s[|s| - |StatusSuffix(true)|..] == StatusSuffix(true)
    ensures r == Some(false) ==> |s| >= |StatusSuffix(false)| && s[|s| - |StatusSuffix(false)|..] == StatusSuffix(false)
  {
    var done, pending := StatusSuffix(true), StatusSuffix(false);
    if |s| >= |done| && s[|s| - |done|..] == done then Some(true)
    else if |s| >= |pending| && s[|s| - |pending|..] == pending then Some(false)
    else None
  }

  /** The details string always tells the status it was built from: "Completed" exactly when completed. */
  lemma DetailsStatusRoundTrip(a: Appointment, doctorLastName: string, patientFullName: string,
                               scheduledText: string)
    ensures DetailsStatus(AppointmentDetails(a, doctorLastName, patientFullName, scheduledText))
      == Some(a.isCompleted)
  {
    var s := AppointmentDetails(a, doctorLastName, patientFullName, scheduledText);
    var done := StatusSuffix(true);
    if !a.isCompleted {
      // Both suffixes end in '.', but the character before it differs: "g." versus "d.".
      assert |s| >= |done|;
      assert s[|s| - |done|..][|done| - 2] == s[|s| - 2] == 'g';
      assert done[|done| - 2] == 'd';
    }
  }
}
