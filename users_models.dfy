/**
 * The identity records of `apps/users/models.py`: the custom User with its
 * role flags, and the Doctor and Patient profiles that each link one-to-one
 * to a User; their string forms; and the request caller derived from them.
 */
module UserModels {
  import opened Wrappers

  type UserId = nat
  type DoctorId = nat
  type PatientId = nat

  /** Column widths declared on the models. */
  const PhoneNumberMaxLength: nat := 15
  const GenderMaxLength: nat := 1

  /**
   * The password column. A user made by `objects.create` without a password has
   * none; `set_password` stores a hash of the raw password (the hashing itself
   * belongs to Django and is abstracted to keeping the raw secret).
   */
  datatype Credential = NoPassword | Hashed(secret: string)

  /**
   * The custom User: Django's AbstractUser fields that the core reads
   * (username, email, names, is_staff, password) plus the two role flags
   * and the optional phone number.
   */
  datatype User = User(
    id: UserId,
    username: string,
    email: string,
    firstName: string,
    lastName: string,
    phoneNumber: Option<string>,
    isDoctor: bool,
    isPatient: bool,
    isStaff: bool,
    password: Credential)

  /** A user row as first inserted: every field the caller does not give takes its model default. */
  function NewUser(id: UserId, username: string, email: string): (u: User)
    ensures u.id == id && u.username == username && u.email == email
    ensures !u.isDoctor && !u.isPatient && !u.isStaff
    ensures u.firstName == "" && u.lastName == "" && u.phoneNumber == None
    ensures u.password == NoPassword
  {
    User(id, username, email, "", "", None, false, false, false, NoPassword)
  }

  /** The phone number fits its 15-character column (it may be absent). */
  predicate WellFormedUser(u: User) {
    u.phoneNumber.Some? ==> |u.phoneNumber.value| <= PhoneNumberMaxLength
  }

  /** `User.__str__`. */
  function UserStr(u: User): (s: string)
    ensures s == u.username
  {
    u.username
  }

  /** A doctor profile: one user and a specialization. */
  datatype Doctor = Doctor(id: DoctorId, user: UserId, specialization: string)

  /** `Doctor.__str__`: "<username> - <specialization> ", trailing space included. */
  function DoctorStr(d: Doctor, u: User): (s: string)
    requires d.user == u.id
    ensures |s| == |u.username| + |d.specialization| + 4
    ensures s[..|u.username|] == u.username
    ensures s[|u.username|..|u.username| + 3] == " - "
    ensures s[|u.username| + 3..|s| - 1] == d.specialization
    ensures s[|s| - 1] == ' '
  {
    u.username + " - " + d.specialization + " "
  }

  /**
   * `Doctor.details`; Django's `get_full_name` is not part of this model, so the
   * user's full name is given.
   */
  function DoctorDetails(d: Doctor, fullName: string): (s: string)
    ensures |s| == |fullName| + |d.specialization| + 24
    ensures s[..7] == "Doctor " && s[7..7 + |fullName|] == fullName
    ensures s[7 + |fullName|..23 + |fullName|] == " specializes in "
    ensures s[23 + |fullName|..|s| - 1] == d.specialization && s[|s| - 1] == '.'
  {
    "Doctor " + fullName + " specializes in " + d.specialization + "."
  }

  /** The two gender choices of a patient. */
  datatype Gender = Male | Female

  /** GENDER_CHOICES: stored code and display label, in declaration order. */
  const GenderChoices: seq<(string, string)> := [("M", "Male"), ("F", "Female")]

  /** The one-character code stored in the gender column. */
  function GenderCode(g: Gender): (c: string)
    ensures |c| == GenderMaxLength
    ensures exists k :: 0 <= k < |GenderChoices| && GenderChoices[k].0 == c
  {
    match g
    case Male => assert GenderChoices[0].0 == "M"; "M"
    case Female => assert GenderChoices[1].0 == "F"; "F"
  }

  /** Reads a stored gender code back; only the codes of GENDER_CHOICES are accepted. */
  function ParseGender(c: string): (r: Option<Gender>)
    ensures r.Some? <==> exists k :: 0 <= k < |GenderChoices| && GenderChoices[k].0 == c
  {
    assert GenderChoices[0].0 == "M" && GenderChoices[1].0 == "F";
    if c == "M" then Some(Male)
    else if c == "F" then Some(Female)
    else None
  }

  /** Storing a gender and reading it back gives the same gender, and every accepted code is the one stored. */
  lemma GenderCodeRoundTrip(g: Gender, c: string)
    ensures ParseGender(GenderCode(g)) == Some(g)
    ensures ParseGender(c).Some? ==> GenderCode(ParseGender(c).value) == c
  {
  }

  /** `get_gender_display`: the label GENDER_CHOICES pairs with the stored code. */
  function GenderDisplay(g: Gender): (display: string)
    ensures exists k :: 0 <= k < |GenderChoices| && GenderChoices[k] == (GenderCode(g), display)
  {
    match g
    case Male => assert GenderChoices[0] == ("M", "Male"); "Male"
    case Female => assert GenderChoices[1] == ("F", "Female"); "Female"
  }

  /** A patient profile: one user, a date of birth (as a day number) and a gender. */
  datatype Patient = Patient(id: PatientId, user: UserId, dateOfBirth: int, gender: Gender)

  /** `Patient.__str__`: "Patient: <username>". */
  function PatientStr(p: Patient, u: User): (s: string)
    requires p.user == u.id
    ensures PatientStrUsername(s) == Some(u.username)
  {
    "Patient: " + u.username
  }

  /** The inverse of PatientStr: the username a "Patient: ..." string names, if it has that form. */
  function PatientStrUsername(s: string): (r: Option<string>)
    ensures r.Some? <==> |s| >= 9 && s[..9] == "Patient: "
    ensures r.Some? ==> "Patient: " + r.value == s
  {
    if |s| >= 9 && s[..9] == "Patient: " then Some(s[9..]) else None
  }

  /**
   * `Patient.details`: "<username> (<gender label>), born on <date>"; the date
   * formatting is Django's `strftime` and is given as text.
   */
  function PatientDetails(p: Patient, u: User, dateText: string): (s: string)
    requires p.user == u.id
    ensures |s| == |u.username| + |GenderDisplay(p.gender)| + |dateText| + 13
    ensures s[..|u.username|] == u.username
    ensures s[|u.username|..|u.username| + 2] == " ("
    ensures s[|u.username| + 2..|u.username| + 2 + |GenderDisplay(p.gender)|] == GenderDisplay(p.gender)
    ensures s[|u.username| + 2 + |GenderDisplay(p.gender)|..|s| - |dateText|] == "), born on "
    ensures s[|s| - |dateText|..] == dateText
  {
    u.username + " (" + GenderDisplay(p.gender) + "), born on " + dateText
  }

  /** Each user has at most one doctor profile (the one-to-one `user` link), and profile ids are keys. */
  predicate DoctorsOneToOne(doctors: seq<Doctor>) {
    forall i, j :: 0 <= i < j < |doctors| ==>
      doctors[i].user != doctors[j].user && doctors[i].id != doctors[j].id
  }

  /** Each user has at most one patient profile, and profile ids are keys. */
  predicate PatientsOneToOne(patients: seq<Patient>) {
    forall i, j :: 0 <= i < j < |patients| ==>
      patients[i].user != patients[j].user && patients[i].id != patients[j].id
  }

  /** The reverse one-to-one accessor `user.doctor`: the doctor profile linked to a user, if any. */
  function DoctorProfileOf(doctors: seq<Doctor>, uid: UserId): (r: Option<Doctor>)
    ensures r.Some? ==> r.value in doctors && r.value.user == uid
    ensures r.None? ==> forall d :: d in doctors ==> d.user != uid
  {
    if doctors == [] then None
    else if doctors[0].user == uid then Some(doctors[0])
    else DoctorProfileOf(doctors[1..], uid)
  }

  /** Under the one-to-one link, the profile found for a doctor's user is that doctor. */
  lemma DoctorProfileOfLinked(doctors: seq<Doctor>, d: Doctor)
    requires DoctorsOneToOne(doctors)
    requires d in doctors
    ensures DoctorProfileOf(doctors, d.user) == Some(d)
  {
  }

  /** The reverse one-to-one accessor `user.patient`: the patient profile linked to a user, if any. */
  function PatientProfileOf(patients: seq<Patient>, uid: UserId): (r: Option<Patient>)
    ensures r.Some? ==> r.value in patients && r.value.user == uid
    ensures r.None? ==> forall p :: p in patients ==> p.user != uid
  {
    if patients == [] then None
    else if patients[0].user == uid then Some(patients[0])
    else PatientProfileOf(patients[1..], uid)
  }

  /** Under the one-to-one link, the profile found for a patient's user is that patient. */
  lemma PatientProfileOfLinked(patients: seq<Patient>, p: Patient)
    requires PatientsOneToOne(patients)
    requires p in patients
    ensures PatientProfileOf(patients, p.user) == Some(p)
  {
  }

  /**
   * What the permission classes and views know about `request.user`: its
   * `is_staff` flag and its linked doctor profile, if one exists
   * (`hasattr(user, 'doctor')`). The `is_doctor` flag is deliberately absent.
   */
  datatype Caller = Caller(isStaff: bool, doctor: Option<DoctorId>)

  /** The caller a logged-in user becomes, given the doctor profiles. */
  function CallerOf(u: User, doctors: seq<Doctor>): (c: Caller)
    ensures c.isStaff == u.isStaff
    ensures c.doctor.Some? <==> exists d :: d in doctors && d.user == u.id
    ensures c.doctor.Some? ==> exists d :: d in doctors && d.user == u.id && d.id == c.doctor.value
  {
    match DoctorProfileOf(doctors, u.id)
    case None => Caller(u.isStaff, None)
    case Some(d) => Caller(u.isStaff, Some(d.id))
  }

  /**
   * The doctor role is the profile link, not the flag: a user flagged `is_doctor`
   * without a profile is no doctor caller, and a profile makes its user a
   * doctor caller whatever the flag says.
   */
  lemma DoctorRoleIsProfileNotFlag(u: User, doctors: seq<Doctor>, flag: bool)
    ensures CallerOf(u.(isDoctor := flag), doctors) == CallerOf(u, doctors)
    ensures (forall d :: d in doctors ==> d.user != u.id) ==> CallerOf(u.(isDoctor := true), doctors).doctor == None
    ensures DoctorsOneToOne(doctors) && u.isDoctor == false ==>
      forall d :: d in doctors && d.user == u.id ==> CallerOf(u, doctors).doctor == Some(d.id)
  {
    if DoctorsOneToOne(doctors) {
      forall d | d in doctors && d.user == u.id
        ensures CallerOf(u, doctors).doctor == Some(d.id)
      {
        DoctorProfileOfLinked(doctors, d);
      }
    }
  }
}
