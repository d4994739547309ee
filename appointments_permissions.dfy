/**
 * The two permission classes of `apps/appointments/permissions.py`, checked
 * against a role table: staff may do everything, a caller with a doctor
 * profile may only read (and, per object, only their own appointments), and
 * every other caller may do nothing.
 */
module Permissions {
  import opened Api
  import opened UserModels
  import opened AppointmentModels

  /** The caller's role; the staff flag takes precedence over a doctor profile. */
  datatype Role = Admin | DoctorRole(doctor: DoctorId) | Other

  function RoleOf(c: Caller): Role {
    if c.isStaff then Admin
    else if c.doctor.Some? then DoctorRole(c.doctor.value)
    else Other
  }

  /** The methods each role may use on the appointment endpoints. */
  function ViewCapabilities(r: Role): set<Method> {
    match r
    case Admin => AllMethods
    case DoctorRole(_) => SafeMethods
    case Other => {}
  }

  /** The methods each role may use on one appointment owned by `owner`. */
  function ObjectCapabilities(r: Role, owner: DoctorId): set<Method> {
    match r
    case Admin => AllMethods
    case DoctorRole(d) => if d == owner then SafeMethods else {}
    case Other => {}
  }

  /** `IsAdminUserOrReadOnlyForDoctors.has_permission`. */
  function HasPermission(c: Caller, m: Method): (granted: bool)
    ensures granted <==> m in ViewCapabilities(RoleOf(c))
  {
    if c.isStaff then AllMethodsComplete(m); true
    else if IsSafe(m) && c.doctor.Some? then true
    else false
  }

  /** `IsAdminUserOrAppointmentDoctor.has_object_permission`. */
  function HasObjectPermission(c: Caller, m: Method, obj: Appointment): (granted: bool)
    ensures granted <==> m in ObjectCapabilities(RoleOf(c), obj.doctor)
  {
    if c.isStaff then AllMethodsComplete(m); true
    else if c.doctor.Some? && obj.doctor == c.doctor.value then IsSafe(m)
    else false
  }

  /** Staff are granted every method by both checks, whichever doctor owns the appointment. */
  lemma StaffAlwaysGranted(c: Caller, m: Method, obj: Appointment)
    requires c.isStaff
    ensures HasPermission(c, m) && HasObjectPermission(c, m, obj)
  {
    AllMethodsComplete(m);
  }

  /** A non-staff doctor is granted view-level permission exactly for the safe methods. */
  lemma DoctorViewPermissionIsSafe(c: Caller, m: Method)
    requires !c.isStaff && c.doctor.Some?
    ensures HasPermission(c, m) <==> IsSafe(m)
    ensures !HasPermission(c, POST) && !HasPermission(c, PUT) && !HasPermission(c, PATCH)
      && !HasPermission(c, DELETE)
  {
  }

  /** A non-staff caller without a doctor profile is denied every method by both checks. */
  lemma NoProfileDenied(c: Caller, m: Method, obj: Appointment)
    requires !c.isStaff && c.doctor.None?
    ensures !HasPermission(c, m) && !HasObjectPermission(c, m, obj)
  {
  }

  /** For a non-staff doctor, object permission on an appointment depends on ownership and safety. */
  lemma DoctorObjectPermission(c: Caller, m: Method, obj: Appointment)
    requires !c.isStaff && c.doctor.Some?
    ensures obj.doctor == c.doctor.value ==> (HasObjectPermission(c, m, obj) <==> IsSafe(m))
    ensures obj.doctor != c.doctor.value ==> !HasObjectPermission(c, m, obj)
  {
  }

  /** Neither check ever grants a non-staff caller a method that is not safe. */
  lemma NonStaffNeverGrantedUnsafe(c: Caller, m: Method, obj: Appointment)
    requires !c.isStaff && !IsSafe(m)
    ensures !HasPermission(c, m) && !HasObjectPermission(c, m, obj)
  {
  }

  /** Whatever the object check grants, the view check grants too. */
  lemma ObjectPermissionImpliesViewPermission(c: Caller, m: Method, obj: Appointment)
    ensures HasObjectPermission(c, m, obj) ==> HasPermission(c, m)
  {
  }

  /**
   * A user registered with `is_doctor` but no doctor profile is refused even a
   * read, while a user flagged neither way but linked to a profile may read.
   */
  lemma DoctorFlagGrantsNothing(u: User, doctors: seq<Doctor>, flag: bool)
    requires !u.isStaff
    ensures (forall e :: e in doctors ==> e.user != u.id) ==>
      !HasPermission(CallerOf(u.(isDoctor := flag), doctors), GET)
    ensures (exists d :: d in doctors && d.user == u.id) ==>
      HasPermission(CallerOf(u.(isDoctor := flag), doctors), GET)
  {
  }
}
