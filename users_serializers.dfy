/**
 * The serializers of `apps/users/serializers.py`: registration (password
 * confirmation in `validate`, the user row built by `create`) and the
 * profile representation; plus the user table that registration writes.
 */
module UserSerializers {
  import opened Wrappers
  import opened Api
  import opened UserModels

  /** RegisterSerializer's declared fields; the two passwords are write-only. */
  const RegisterFields: seq<string> := ["username", "email", "password", "password2", "is_doctor", "is_patient"]
  const WriteOnlyFields: set<string> := {"password", "password2"}

  /** UserSerializer's declared fields: no password of any kind. */
  const ProfileFields: seq<string> :=
    ["id", "username", "email", "first_name", "last_name", "phone_number", "is_doctor", "is_patient"]

  const PasswordMismatch := "Password fields didn't match."

  /**
   * A registration request after field validation. username, password and
   * password2 are required; email (a blank-able column) and the two flags
   * (columns with a default) are optional, and are None when the request
   * leaves them out.
   */
  datatype Registration = Registration(
    username: string,
    email: Option<string>,
    password: string,
    password2: string,
    isDoctor: Option<bool>,
    isPatient: Option<bool>)

  /** `RegisterSerializer.validate`: the two passwords must agree. */
  function ValidateRegistration(attrs: Registration): (r: Result<Registration, ApiError>)
    ensures r.Ok? <==> attrs.password == attrs.password2
    ensures r.Ok? ==> r.value == attrs
    ensures r.Err? ==> r.error == ValidationError(map["password" := PasswordMismatch])
  {
    if attrs.password != attrs.password2 then Err(ValidationError(map["password" := PasswordMismatch]))
    else Ok(attrs)
  }

  /** Why `create` as written can fail: it indexes a key that validation left out. */
  datatype CreateFailure = MissingKey(key: string)

  /**
   * `RegisterSerializer.create` as written: it reads `validated_data['email']`,
   * `['is_doctor']` and `['is_patient']` directly, so an optional field the
   * request left out raises KeyError instead of taking the model default.
   */
  function CreateAsWritten(id: UserId, data: Registration): (r: Result<User, CreateFailure>)
    ensures r.Ok? <==> data.email.Some? && data.isDoctor.Some? && data.isPatient.Some?
    ensures r.Ok? ==> r.value == RegisteredUser(id, data)
  {
    if data.email.None? then Err(MissingKey("email"))
    else if data.isDoctor.None? then Err(MissingKey("is_doctor"))
    else if data.isPatient.None? then Err(MissingKey("is_patient"))
    else Ok(RegisteredUser(id, data))
  }

  /** A registration that gives only username and matching passwords passes `validate` but crashes `create`. */
  lemma CreateAsWrittenRejectsMinimalRegistration()
    ensures var data := Registration("alice", None, "s3cret-pass", "s3cret-pass", None, None);
      ValidateRegistration(data).Ok? && CreateAsWritten(1, data) == Err(MissingKey("email"))
  {
  }

  /**
   * The user row `create` evidently intends (and the model uses): inserted by
   * `objects.create` with username, email and the two flags, each optional one
   * falling back to its model default; then `set_password` and `save`.
   */
  function RegisteredUser(id: UserId, data: Registration): (u: User)
    ensures u.id == id && u.username == data.username
    ensures u.email == (if data.email.Some? then data.email.value else "")
    ensures u.isDoctor <==> data.isDoctor == Some(true)
    ensures u.isPatient <==> data.isPatient == Some(true)
    ensures !u.isStaff && u.firstName == "" && u.lastName == "" && u.phoneNumber == None
    ensures u.password == Hashed(data.password)
    ensures WellFormedUser(u)
  {
    var row := NewUser(id, data.username, if data.email.Some? then data.email.value else "");
    var flagged := row.(isDoctor := data.isDoctor == Some(true), isPatient := data.isPatient == Some(true));
    flagged.(password := Hashed(data.password))
  }

  /** The response to a registration: RegisterSerializer's fields without the write-only ones. */
  function RegisterRepresentation(u: User): (o: Object)
    ensures o.Keys == FieldSet(RegisterFields) - WriteOnlyFields
    ensures o["username"] == Str(u.username) && o["email"] == Str(u.email)
    ensures o["is_doctor"] == Bool(u.isDoctor) && o["is_patient"] == Bool(u.isPatient)
  {
    map["username" := Str(u.username), "email" := Str(u.email),
        "is_doctor" := Bool(u.isDoctor), "is_patient" := Bool(u.isPatient)]
  }

  /** UserSerializer's representation of a profile. */
  function ProfileRepresentation(u: User): (o: Object)
    ensures o.Keys == FieldSet(ProfileFields)
    ensures "password" !in o && "password2" !in o
  {
    map[
      "id" := Int(u.id),
      "username" := Str(u.username),
      "email" := Str(u.email),
      "first_name" := Str(u.firstName),
      "last_name" := Str(u.lastName),
      "phone_number" := if u.phoneNumber.Some? then Str(u.phoneNumber.value) else Null,
      "is_doctor" := Bool(u.isDoctor),
      "is_patient" := Bool(u.isPatient)]
  }

  /**
   * Reads a user back from a profile representation; the staff flag and the
   * password are not in it and must be supplied.
   */
  function ProfileFromRepresentation(o: Object, isStaff: bool, password: Credential): (r: Option<User>)
    ensures r.Some? ==> r.value.isStaff == isStaff && r.value.password == password
  {
    if "id" in o && "username" in o && "email" in o && "first_name" in o && "last_name" in o
      && "phone_number" in o && "is_doctor" in o && "is_patient" in o
      && o["id"].Int? && o["id"].i >= 0 && o["username"].Str? && o["email"].Str?
      && o["first_name"].Str? && o["last_name"].Str?
      && (o["phone_number"].Str? || o["phone_number"].Null?)
      && o["is_doctor"].Bool? && o["is_patient"].Bool?
    then
      Some(User(o["id"].i, o["username"].s, o["email"].s, o["first_name"].s, o["last_name"].s,
                if o["phone_number"].Str? then Some(o["phone_number"].s) else None,
                o["is_doctor"].b, o["is_patient"].b, isStaff, password))
    else None
  }

  /** A profile representation holds every field it shows, so the user can be read back from it. */
  lemma ProfileRoundTrip(u: User)
    ensures ProfileFromRepresentation(ProfileRepresentation(u), u.isStaff, u.password) == Some(u)
  {
    var o := ProfileRepresentation(u);
    assert o["id"] == Int(u.id) && o["username"] == Str(u.username) && o["email"] == Str(u.email);
    assert o["first_name"] == Str(u.firstName) && o["last_name"] == Str(u.lastName);
    assert o["is_doctor"] == Bool(u.isDoctor) && o["is_patient"] == Bool(u.isPatient);
  }

  /** A registered user's profile echoes the registration's username, email and flags, and no password. */
  lemma RegisteredProfileEchoesInput(id: UserId, data: Registration)
    ensures var o := ProfileRepresentation(RegisteredUser(id, data));
      o["username"] == Str(data.username)
      && o["email"] == Str(if data.email.Some? then data.email.value else "")
      && o["is_doctor"] == Bool(data.isDoctor == Some(true))
      && o["is_patient"] == Bool(data.isPatient == Some(true))
      && "password" !in o
  {
  }

  /** The user table that registration writes to. */
  class UserTable {
    var users: seq<User>
    var nextId: nat

    /** User ids are keys, every stored id is below the next one handed out, and every row fits its columns. */
    ghost predicate Valid()
      reads this
    {
      (forall i, j :: 0 <= i < j < |users| ==> users[i].id != users[j].id)
      && forall u :: u in users ==> u.id < nextId && WellFormedUser(u)
    }

    constructor ()
      ensures Valid() && users == [] && nextId == 1
    {
      users := [];
      nextId := 1;
    }

    /**
     * `RegisterSerializer.create`: insert the row with the given fields, then set
     * the password on it, then save it over the inserted row.
     */
    method Create(data: Registration) returns (u: User)
      requires Valid()
      modifies this
      ensures Valid()
      ensures u == RegisteredUser(old(nextId), data)
      ensures users == old(users) + [u] && nextId == old(nextId) + 1
    {
      var row := NewUser(nextId, data.username, if data.email.Some? then data.email.value else "");
      row := row.(isDoctor := data.isDoctor == Some(true), isPatient := data.isPatient == Some(true));
      users := users + [row];
      nextId := nextId + 1;
      row := row.(password := Hashed(data.password));
      users := users[|users| - 1 := row];
      u := row;
    }

    /** RegisterView POST: `validate`, then `create`; open to any caller. */
    method Register(attrs: Registration) returns (r: Result<User, ApiError>)
      requires Valid()
      modifies this
      ensures Valid()
      ensures r.Ok? <==> attrs.password == attrs.password2
      ensures r.Err? ==> r == Err(ValidationError(map["password" := PasswordMismatch]))
      ensures r.Err? ==> users == old(users) && nextId == old(nextId)
      ensures r.Ok? ==> r.value == RegisteredUser(old(nextId), attrs)
      ensures r.Ok? ==> users == old(users) + [r.value] && nextId == old(nextId) + 1
    {
      match ValidateRegistration(attrs)
      case Err(e) =>
        r := Err(e);
      case Ok(valid) =>
        var u := Create(valid);
        r := Ok(u);
    }
  }
}
