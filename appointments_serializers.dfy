/**
 * `AppointmentSerializer` of `apps/appointments/serializers.py`: the data a
 * create or update request carries, the staff-only `validate` guard, and the
 * serialized representation with its five fields.
 */
module AppointmentSerializers {
  import opened Wrappers
  import opened Api
  import opened UserModels
  import opened AppointmentModels

  /** The serializer's declared fields, in order. */
  const AppointmentFields: seq<string> := ["id", "patient", "doctor", "scheduled_at", "is_completed"]

  const NonFieldErrors := "non_field_errors"
  const StaffOnlyMessage := "Only admin users can create or modify appointments."
  const RequiredMessage := "This field is required."

  /**
   * The writable fields a request supplies; `id` is read-only. A field absent
   * from the request is None.
   */
  datatype AppointmentData = AppointmentData(
    patient: Option<PatientId>,
    doctor: Option<DoctorId>,
    scheduledAt: Option<int>,
    isCompleted: Option<bool>)

  /** One "required" error for each of the given fields. */
  function RequiredErrors(fields: seq<string>): map<string, string> {
    map f | f in fields :: RequiredMessage
  }

  /** The required fields a full write leaves out, in declaration order. */
  function MissingFields(data: AppointmentData): seq<string> {
    (if data.patient.None? then ["patient"] else [])
      + (if data.doctor.None? then ["doctor"] else [])
      + (if data.scheduledAt.None? then ["scheduled_at"] else [])
  }

  /**
   * The required-field check the model fields imply: patient, doctor and
   * scheduled_at have no default, so a full (non-partial) write must give them;
   * is_completed has a default and is never required. As in REST framework's
   * `to_internal_value`, every missing field gets its own error.
   */
  function CheckRequired(data: AppointmentData, partial: bool): (r: Result<AppointmentData, ApiError>)
    ensures r.Ok? <==> partial || (data.patient.Some? && data.doctor.Some? && data.scheduledAt.Some?)
    ensures r.Ok? ==> r.value == data
    ensures r.Err? ==> r.error.ValidationError?
    ensures r.Err? ==> ("patient" in r.error.errors <==> data.patient.None?)
    ensures r.Err? ==> ("doctor" in r.error.errors <==> data.doctor.None?)
    ensures r.Err? ==> ("scheduled_at" in r.error.errors <==> data.scheduledAt.None?)
    ensures r.Err? ==> forall f :: f in r.error.errors ==> f in AppointmentFields && r.error.errors[f] == RequiredMessage
  {
    if partial then Ok(data)
    else
      var missing := MissingFields(data);
      if missing == [] then Ok(data) else Err(ValidationError(RequiredErrors(missing)))
  }

  /** `AppointmentSerializer.validate`: only a staff caller gets the data back. */
  function Validate(c: Caller, data: AppointmentData): (r: Result<AppointmentData, ApiError>)
    ensures r.Ok? <==> c.isStaff
    ensures r.Ok? ==> r.value == data
    ensures r.Err? ==> r.error == ValidationError(map[NonFieldErrors := StaffOnlyMessage])
  {
    if !c.isStaff then Err(ValidationError(map[NonFieldErrors := StaffOnlyMessage]))
    else Ok(data)
  }

  /** Acceptance depends on the staff flag alone, never on what the data says. */
  lemma ValidateIgnoresData(c: Caller, d1: AppointmentData, d2: AppointmentData)
    ensures Validate(c, d1).Ok? == Validate(c, d2).Ok?
    ensures Validate(c, d1).Err? ==> Validate(c, d1) == Validate(c, d2)
  {
  }

  /** `serializer.save()` on create: a new row with the next id; is_completed defaults to false. */
  function Build(id: AppointmentId, data: AppointmentData): (a: Appointment)
    requires data.patient.Some? && data.doctor.Some? && data.scheduledAt.Some?
    ensures a.id == id
    ensures a.patient == data.patient.value && a.doctor == data.doctor.value
    ensures a.scheduledAt == data.scheduledAt.value
    ensures a.isCompleted <==> data.isCompleted == Some(true)
  {
    NewAppointment(id, data.patient.value, data.doctor.value, data.scheduledAt.value, data.isCompleted)
  }

  /** `serializer.save()` on update: each supplied field replaces the stored one; the id never changes. */
  function ApplyChanges(a: Appointment, data: AppointmentData): (b: Appointment)
    ensures b.id == a.id
    ensures b.patient == (if data.patient.Some? then data.patient.value else a.patient)
    ensures b.doctor == (if data.doctor.Some? then data.doctor.value else a.doctor)
    ensures b.scheduledAt == (if data.scheduledAt.Some? then data.scheduledAt.value else a.scheduledAt)
    ensures b.isCompleted == (if data.isCompleted.Some? then data.isCompleted.value else a.isCompleted)
  {
    Appointment(
      a.id,
      if data.patient.Some? then data.patient.value else a.patient,
      if data.doctor.Some? then data.doctor.value else a.doctor,
      if data.scheduledAt.Some? then data.scheduledAt.value else a.scheduledAt,
      if data.isCompleted.Some? then data.isCompleted.value else a.isCompleted)
  }

  /** All writable fields of an appointment, as a full write would supply them. */
  function ToData(a: Appointment): AppointmentData {
    AppointmentData(Some(a.patient), Some(a.doctor), Some(a.scheduledAt), Some(a.isCompleted))
  }

  /** Writing an appointment's own fields back over it changes nothing; writing nothing changes nothing. */
  lemma ApplyChangesIdentity(a: Appointment)
    ensures ApplyChanges(a, ToData(a)) == a
    ensures ApplyChanges(a, AppointmentData(None, None, None, None)) == a
  {
  }

  /** The serialized representation: exactly the declared fields. */
  function ToRepresentation(a: Appointment): (o: Object)
    ensures o.Keys == FieldSet(AppointmentFields)
    ensures FromRepresentation(o) == Some(a)
  {
    map[
      "id" := Int(a.id),
      "patient" := Int(a.patient),
      "doctor" := Int(a.doctor),
      "scheduled_at" := Time(a.scheduledAt),
      "is_completed" := Bool(a.isCompleted)]
  }

  /** Reads an appointment back from its representation, if every field is there and well typed. */
  function FromRepresentation(o: Object): (r: Option<Appointment>)
    ensures r.Some? ==> forall f :: f in AppointmentFields ==> f in o
  {
    if "id" in o && "patient" in o && "doctor" in o && "scheduled_at" in o && "is_completed" in o
      && o["id"].Int? && o["id"].i >= 0
      && o["patient"].Int? && o["patient"].i >= 0
      && o["doctor"].Int? && o["doctor"].i >= 0
      && o["scheduled_at"].Time? && o["is_completed"].Bool?
    then Some(Appointment(o["id"].i, o["patient"].i, o["doctor"].i, o["scheduled_at"].t, o["is_completed"].b))
    else None
  }
}
