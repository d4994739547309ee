/**
 * The two views of `apps/appointments/views.py` over an abstract appointment
 * table: the role-scoped queryset that both views share, lookup by id inside
 * it, and the list/create and retrieve/update/destroy endpoints.
 *
 * Django REST framework decides in which order the checks run; this module
 * fixes that order as an assumption. On the list view: `has_permission`, then
 * the queryset (GET) or the serializer and `perform_create` (POST). On the
 * detail view, whose permission class keeps the default `has_permission`
 * (always granted): lookup by id in the scoped queryset (404 when absent),
 * then `has_object_permission` (403), then the serializer, then the write.
 */
module AppointmentViews {
  import opened Wrappers
  import opened Api
  import opened Seqs
  import opened UserModels
  import opened AppointmentModels
  import opened Permissions
  import opened AppointmentSerializers

  // ----- The scoped queryset -----

  /** Whether a role's queryset contains an appointment. */
  predicate CanSee(r: Role, a: Appointment) {
    match r
    case Admin => true
    case DoctorRole(d) => a.doctor == d
    case Other => false
  }

  /** `Appointment.objects.filter(doctor=d)`: the doctor's rows, in table order, each as often as stored. */
  function FilterByDoctor(store: seq<Appointment>, d: DoctorId): (r: seq<Appointment>)
    ensures forall a :: multiset(r)[a] == if a.doctor == d then multiset(store)[a] else 0
    ensures IsSubsequence(r, store)
  {
    if store == [] then []
    else
      var rest := FilterByDoctor(store[1..], d);
      assert store == [store[0]] + store[1..];
      if store[0].doctor == d then
        SubsequenceCons(store[0], rest, store[1..]);
        [store[0]] + rest
      else
        assert rest == [] || rest[0] != store[0] by {
          if rest != [] {
            assert rest[0] in multiset(rest);
          }
        }
        rest
  }

  /**
   * `get_queryset`, identical in AppointmentListView and AppointmentDetailView:
   * everything for staff, the linked doctor's appointments for a non-staff
   * caller with a doctor profile, nothing for anyone else.
   */
  function Queryset(c: Caller, store: seq<Appointment>): (r: seq<Appointment>)
    ensures forall a :: multiset(r)[a] == if CanSee(RoleOf(c), a) then multiset(store)[a] else 0
    ensures forall a :: a in r <==> a in store && CanSee(RoleOf(c), a)
    ensures IsSubsequence(r, store)
    ensures c.isStaff ==> r == store
    ensures !c.isStaff && c.doctor.None? ==> r == []
  {
    if c.isStaff then
      SubsequenceRefl(store);
      store
    else if c.doctor.Some? then
      FilterByDoctor(store, c.doctor.value)
    else
      []
  }

  /** The queryset never holds anything the table does not, nor more rows than it. */
  lemma QuerysetWithinStore(c: Caller, store: seq<Appointment>)
    ensures forall a :: a in Queryset(c, store) ==> a in store
    ensures |Queryset(c, store)| <= |store|
  {
    SubsequenceMembers(Queryset(c, store), store);
  }

  /** A staff caller with a doctor profile still sees the whole table. */
  lemma StaffPrecedence(d: DoctorId, store: seq<Appointment>)
    ensures Queryset(Caller(true, Some(d)), store) == store
  {
  }

  /** A non-staff doctor never sees an appointment that belongs to another doctor. */
  lemma DoctorSeesNoOtherDoctor(c: Caller, store: seq<Appointment>, a: Appointment)
    requires !c.isStaff && c.doctor.Some?
    requires a in Queryset(c, store)
    ensures a.doctor == c.doctor.value
  {
  }

  /** A doctor who owns every appointment of the table sees all of it, in order. */
  lemma {:induction false} DoctorOwningAllSeesAll(store: seq<Appointment>, d: DoctorId)
    requires forall a :: a in store ==> a.doctor == d
    ensures FilterByDoctor(store, d) == store
    ensures Queryset(Caller(false, Some(d)), store) == store
  {
    if store != [] {
      assert forall a :: a in store[1..] ==> a in store;
      DoctorOwningAllSeesAll(store[1..], d);
    }
  }

  // ----- Lookup by id -----

  /** Primary keys are unique in the table. */
  predicate UniqueIds(s: seq<Appointment>) {
    forall i, j :: 0 <= i < j < |s| ==> s[i].id != s[j].id
  }

  /** Two stored rows with the same id are the same row. */
  lemma SameIdSameRow(s: seq<Appointment>, a: Appointment, b: Appointment)
    requires UniqueIds(s) && a in s && b in s && a.id == b.id
    ensures a == b
  {
    var i :| 0 <= i < |s| && s[i] == a;
    var j :| 0 <= j < |s| && s[j] == b;
  }

  /** `queryset.filter(id=id)` narrowed to one row: the first row with that id. */
  function FindById(s: seq<Appointment>, id: AppointmentId): (r: Option<Appointment>)
    ensures r.Some? ==> r.value in s && r.value.id == id
    ensures r.None? <==> forall a :: a in s ==> a.id != id
  {
    if s == [] then None
    else if s[0].id == id then Some(s[0])
    else FindById(s[1..], id)
  }

  /**
   * `get_object`: look the id up in the caller's queryset only (404 when it is
   * not there), then apply the object permission for the request's method (403).
   */
  function GetObject(c: Caller, store: seq<Appointment>, id: AppointmentId, m: Method): (r: Result<Appointment, ApiError>)
    ensures r.Ok? ==> r.value in store && r.value.id == id
    ensures r.Ok? ==> CanSee(RoleOf(c), r.value) && HasObjectPermission(c, m, r.value)
    ensures r == Err(NotFound) <==> forall a :: a in Queryset(c, store) ==> a.id != id
    ensures r.Err? ==> r.error == NotFound || r.error == Forbidden
    ensures r == Err(Forbidden) ==>
      exists a :: a in store && a.id == id && CanSee(RoleOf(c), a) && !HasObjectPermission(c, m, a)
  {
    match FindById(Queryset(c, store), id)
    case None => Err(NotFound)
    case Some(a) => if HasObjectPermission(c, m, a) then Ok(a) else Err(Forbidden)
  }

  /** With unique ids, the lookup yields exactly the caller-visible row with that id. */
  lemma GetObjectFindsVisibleRow(c: Caller, store: seq<Appointment>, a: Appointment, m: Method)
    requires UniqueIds(store)
    requires a in store && CanSee(RoleOf(c), a)
    ensures GetObject(c, store, a.id, m) == if HasObjectPermission(c, m, a) then Ok(a) else Err(Forbidden)
  {
    var found := FindById(Queryset(c, store), a.id);
    assert a in Queryset(c, store);
    SameIdSameRow(store, a, found.value);
  }

  // ----- Table writes -----

  /** Saving an updated row over the stored row with the same id. */
  function ReplaceById(s: seq<Appointment>, b: Appointment): (r: seq<Appointment>)
    ensures |r| == |s|
    ensures forall i :: 0 <= i < |s| ==> r[i] == if s[i].id == b.id then b else s[i]
  {
    seq(|s|, i requires 0 <= i < |s| => if s[i].id == b.id then b else s[i])
  }

  /** Deleting the row with an id; every other row stays, in order. */
  function RemoveById(s: seq<Appointment>, id: AppointmentId): (r: seq<Appointment>)
    ensures forall a :: a in r <==> a in s && a.id != id
    ensures IsSubsequence(r, s)
  {
    if s == [] then []
    else
      var rest := RemoveById(s[1..], id);
      assert s == [s[0]] + s[1..];
      if s[0].id == id then
        assert rest == [] || rest[0] != s[0] by {
          if rest != [] {
            assert rest[0] in rest;
          }
        }
        rest
      else
        SubsequenceCons(s[0], rest, s[1..]);
        [s[0]] + rest
  }

  /** Removing rows keeps the remaining ids unique. */
  lemma {:induction false} RemoveKeepsUnique(s: seq<Appointment>, id: AppointmentId)
    requires UniqueIds(s)
    ensures UniqueIds(RemoveById(s, id))
  {
    if s != [] {
      assert UniqueIds(s[1..]) by {
        forall i, j | 0 <= i < j < |s| - 1 ensures s[1..][i].id != s[1..][j].id {
          assert s[1..][i] == s[i + 1] && s[1..][j] == s[j + 1];
        }
      }
      RemoveKeepsUnique(s[1..], id);
      var rest := RemoveById(s[1..], id);
      if s[0].id != id {
        forall a | a in rest ensures a.id != s[0].id {
          var k :| 0 <= k < |s| - 1 && s[1..][k] == a;
          assert s[k + 1] == a;
        }
        var r := [s[0]] + rest;
        forall i, j | 0 <= i < j < |r| ensures r[i].id != r[j].id {
          assert r[j] == rest[j - 1];
          if i > 0 {
            assert r[i] == rest[i - 1];
          } else {
            assert rest[j - 1] in rest;
          }
        }
      }
    }
  }

  // ----- The table and the endpoints as transitions -----

  /** The appointment table and the next primary key the database will hand out. */
  datatype Db = Db(appointments: seq<Appointment>, nextId: nat)

  /** Ids are unique and all below the next id. */
  predicate ValidDb(db: Db) {
    UniqueIds(db.appointments) && forall a :: a in db.appointments ==> a.id < db.nextId
  }

  /** What a request leaves behind: the table afterwards and the response. */
  datatype Outcome<T> = Outcome(db: Db, response: Result<T, ApiError>)

  /** GET on the list endpoint. */
  function ListResponse(c: Caller, store: seq<Appointment>): (r: Result<seq<Appointment>, ApiError>)
    ensures r.Ok? <==> c.isStaff || c.doctor.Some?
    ensures r.Err? ==> r.error == Forbidden
    ensures r.Ok? ==> forall a :: a in r.value <==> a in store && CanSee(RoleOf(c), a)
  {
    if HasPermission(c, GET) then Ok(Queryset(c, store)) else Err(Forbidden)
  }

  /** POST on the list endpoint: permission, required fields, `validate`, then `perform_create`. */
  function CreateOutcome(db: Db, c: Caller, data: AppointmentData): (o: Outcome<Appointment>)
    ensures o.response.Ok? <==> c.isStaff && data.patient.Some? && data.doctor.Some? && data.scheduledAt.Some?
    ensures o.response.Ok? ==> o.db == Db(db.appointments + [o.response.value], db.nextId + 1)
    ensures o.response.Ok? ==> o.response.value == Build(db.nextId, data)
    ensures o.response.Err? ==> o.db == db
    ensures !c.isStaff ==> o.response == Err(Forbidden)
  {
    if !HasPermission(c, POST) then Outcome(db, Err(Forbidden))
    else match CheckRequired(data, false)
      case Err(e) => Outcome(db, Err(e))
      case Ok(fields) =>
        match Validate(c, fields)
        case Err(e) => Outcome(db, Err(e))
        case Ok(valid) =>
          var a := Build(db.nextId, valid);
          Outcome(Db(db.appointments + [a], db.nextId + 1), Ok(a))
  }

  /** PUT (`partial` false) or PATCH (`partial` true) on the detail endpoint. */
  function UpdateOutcome(db: Db, c: Caller, id: AppointmentId, data: AppointmentData, partial: bool): (o: Outcome<Appointment>)
    ensures o.response.Ok? ==> c.isStaff && o.response.value.id == id
    ensures o.response.Ok? ==>
      exists a :: a in db.appointments && a.id == id && o.response.value == ApplyChanges(a, data)
    ensures o.response.Ok? ==> o.db == Db(ReplaceById(db.appointments, o.response.value), db.nextId)
    ensures o.response.Err? ==> o.db == db
  {
    var m := if partial then PATCH else PUT;
    match GetObject(c, db.appointments, id, m)
    case Err(e) => Outcome(db, Err(e))
    case Ok(a) =>
      match CheckRequired(data, partial)
      case Err(e) => Outcome(db, Err(e))
      case Ok(fields) =>
        match Validate(c, fields)
        case Err(e) => Outcome(db, Err(e))
        case Ok(valid) =>
          var b := ApplyChanges(a, valid);
          Outcome(Db(ReplaceById(db.appointments, b), db.nextId), Ok(b))
  }

  /** DELETE on the detail endpoint. */
  function DeleteOutcome(db: Db, c: Caller, id: AppointmentId): (o: Outcome<()>)
    ensures o.response.Ok? ==> c.isStaff && exists a :: a in db.appointments && a.id == id
    ensures o.response.Ok? ==> o.db == Db(RemoveById(db.appointments, id), db.nextId)
    ensures o.response.Err? ==> o.db == db
  {
    match GetObject(c, db.appointments, id, DELETE)
    case Err(e) => Outcome(db, Err(e))
    case Ok(_) => Outcome(Db(RemoveById(db.appointments, id), db.nextId), Ok(()))
  }

  /** A non-staff caller's create is refused by `has_permission` and changes nothing. */
  lemma NonStaffCreateChangesNothing(db: Db, c: Caller, data: AppointmentData)
    requires !c.isStaff
    ensures CreateOutcome(db, c, data) == Outcome(db, Err(Forbidden))
  {
  }

  /**
   * A non-staff caller's update or delete changes nothing and is refused by the
   * lookup (404) or the object permission (403), never by the serializer.
   */
  lemma {:induction false} NonStaffUpdateChangesNothing(db: Db, c: Caller, id: AppointmentId, data: AppointmentData, partial: bool)
    requires !c.isStaff
    ensures var o := UpdateOutcome(db, c, id, data, partial);
      o.db == db && (o.response == Err(Forbidden) || o.response == Err(NotFound))
  {
    var m := if partial then PATCH else PUT;
    var found := GetObject(c, db.appointments, id, m);
    assert found.Err? by {
      if found.Ok? {
        NonStaffNeverGrantedUnsafe(c, m, found.value);
      }
    }
  }

  lemma {:induction false} NonStaffDeleteChangesNothing(db: Db, c: Caller, id: AppointmentId)
    requires !c.isStaff
    ensures var o := DeleteOutcome(db, c, id);
      o.db == db && (o.response == Err(Forbidden) || o.response == Err(NotFound))
  {
    var found := GetObject(c, db.appointments, id, DELETE);
    assert found.Err? by {
      if found.Ok? {
        NonStaffNeverGrantedUnsafe(c, DELETE, found.value);
      }
    }
  }

  /** A row replaced by one with its own id keeps the table's ids unique and bounded. */
  lemma ReplaceKeepsValid(db: Db, b: Appointment)
    requires ValidDb(db) && exists a :: a in db.appointments && a.id == b.id
    ensures ValidDb(Db(ReplaceById(db.appointments, b), db.nextId))
    ensures b in ReplaceById(db.appointments, b)
  {
    var r := ReplaceById(db.appointments, b);
    var a :| a in db.appointments && a.id == b.id;
    var k :| 0 <= k < |db.appointments| && db.appointments[k] == a;
    assert r[k] == b;
    forall x | x in r ensures x.id < db.nextId {
      var i :| 0 <= i < |r| && r[i] == x;
      assert db.appointments[i] in db.appointments;
    }
    forall i, j | 0 <= i < j < |r| ensures r[i].id != r[j].id {
      assert db.appointments[i].id == r[i].id && db.appointments[j].id == r[j].id;
    }
  }

  /** Appending a row with the next id keeps the ids unique and bounded. */
  lemma CreateKeepsValid(db: Db, c: Caller, data: AppointmentData)
    requires ValidDb(db)
    ensures ValidDb(CreateOutcome(db, c, data).db)
  {
    var o := CreateOutcome(db, c, data);
    if o.response.Ok? {
      var s := db.appointments + [o.response.value];
      assert o.response.value.id == db.nextId;
      forall i, j | 0 <= i < j < |s| ensures s[i].id != s[j].id {
        assert s[i] == db.appointments[i];
        if j < |s| - 1 {
          assert s[j] == db.appointments[j];
        } else {
          assert s[i] in db.appointments;
        }
      }
    }
  }

  lemma UpdateKeepsValid(db: Db, c: Caller, id: AppointmentId, data: AppointmentData, partial: bool)
    requires ValidDb(db)
    ensures ValidDb(UpdateOutcome(db, c, id, data, partial).db)
  {
    var o := UpdateOutcome(db, c, id, data, partial);
    if o.response.Ok? {
      ReplaceKeepsValid(db, o.response.value);
    }
  }

  lemma DeleteKeepsValid(db: Db, c: Caller, id: AppointmentId)
    requires ValidDb(db)
    ensures ValidDb(DeleteOutcome(db, c, id).db)
  {
    RemoveKeepsUnique(db.appointments, id);
  }

  /**
   * Creating an appointment and then retrieving it by the id it was given returns
   * the same field values, for the staff caller who made it and for the doctor
   * it belongs to.
   */
  lemma CreateThenRetrieve(db: Db, c: Caller, data: AppointmentData, reader: Caller)
    requires ValidDb(db)
    requires CreateOutcome(db, c, data).response.Ok?
    requires reader.isStaff || reader.doctor == data.doctor
    ensures var a := CreateOutcome(db, c, data).response.value;
      a.patient == data.patient.value && a.doctor == data.doctor.value
      && a.scheduledAt == data.scheduledAt.value && (a.isCompleted <==> data.isCompleted == Some(true))
      && GetObject(reader, CreateOutcome(db, c, data).db.appointments, a.id, GET) == Ok(a)
  {
    var o := CreateOutcome(db, c, data);
    var a := o.response.value;
    CreateKeepsValid(db, c, data);
    assert a in o.db.appointments;
    GetObjectFindsVisibleRow(reader, o.db.appointments, a, GET);
  }

  /** The owning doctor's PATCH or PUT of their own appointment is refused with 403 and changes nothing. */
  lemma OwnerDoctorUpdateForbidden(db: Db, c: Caller, a: Appointment, data: AppointmentData, partial: bool)
    requires ValidDb(db) && a in db.appointments
    requires !c.isStaff && c.doctor == Some(a.doctor)
    ensures UpdateOutcome(db, c, a.id, data, partial) == Outcome(db, Err(Forbidden))
  {
    var m := if partial then PATCH else PUT;
    assert !HasObjectPermission(c, m, a);
    GetObjectFindsVisibleRow(c, db.appointments, a, m);
  }

  /** The owning doctor's DELETE of their own appointment is refused with 403 and changes nothing. */
  lemma OwnerDoctorDeleteForbidden(db: Db, c: Caller, a: Appointment)
    requires ValidDb(db) && a in db.appointments
    requires !c.isStaff && c.doctor == Some(a.doctor)
    ensures DeleteOutcome(db, c, a.id) == Outcome(db, Err(Forbidden))
  {
    assert !HasObjectPermission(c, DELETE, a);
    GetObjectFindsVisibleRow(c, db.appointments, a, DELETE);
  }

  /** Staff marking an appointment completed by PATCH sees the change on the next GET. */
  lemma StaffPatchCompletes(db: Db, c: Caller, a: Appointment)
    requires ValidDb(db) && a in db.appointments && c.isStaff
    ensures var o := UpdateOutcome(db, c, a.id, AppointmentData(None, None, None, Some(true)), true);
      o.response == Ok(a.(isCompleted := true))
      && GetObject(c, o.db.appointments, a.id, GET) == Ok(a.(isCompleted := true))
  {
    var data := AppointmentData(None, None, None, Some(true));
    GetObjectFindsVisibleRow(c, db.appointments, a, PATCH);
    var o := UpdateOutcome(db, c, a.id, data, true);
    UpdateKeepsValid(db, c, a.id, data, true);
    ReplaceKeepsValid(db, a.(isCompleted := true));
    GetObjectFindsVisibleRow(c, o.db.appointments, a.(isCompleted := true), GET);
  }

  /** Staff updating an existing appointment succeed, with the required fields for PUT. */
  lemma StaffUpdateSucceeds(db: Db, c: Caller, a: Appointment, data: AppointmentData, partial: bool)
    requires ValidDb(db) && a in db.appointments && c.isStaff
    requires partial || (data.patient.Some? && data.doctor.Some? && data.scheduledAt.Some?)
    ensures UpdateOutcome(db, c, a.id, data, partial).response == Ok(ApplyChanges(a, data))
  {
    var m := if partial then PATCH else PUT;
    GetObjectFindsVisibleRow(c, db.appointments, a, m);
    StaffAlwaysGranted(c, m, a);
  }

  /** Staff deleting an existing appointment succeed. */
  lemma StaffDeleteSucceeds(db: Db, c: Caller, a: Appointment)
    requires ValidDb(db) && a in db.appointments && c.isStaff
    ensures DeleteOutcome(db, c, a.id).response.Ok?
  {
    GetObjectFindsVisibleRow(c, db.appointments, a, DELETE);
    StaffAlwaysGranted(c, DELETE, a);
  }

  /** After a delete succeeds, the id is not found for any caller. */
  lemma DeleteThenNotFound(db: Db, c: Caller, id: AppointmentId, reader: Caller, m: Method)
    requires DeleteOutcome(db, c, id).response.Ok?
    ensures GetObject(reader, DeleteOutcome(db, c, id).db.appointments, id, m) == Err(NotFound)
  {
    QuerysetWithinStore(reader, DeleteOutcome(db, c, id).db.appointments);
  }

  // ----- The table as an object -----

  /** The appointment table that the two views read and write. */
  class AppointmentStore {
    var appointments: seq<Appointment>
    var nextId: nat

    function State(): Db
      reads this
    {
      Db(appointments, nextId)
    }

    ghost predicate Valid()
      reads this
    {
      ValidDb(State())
    }

    /** An empty table; Django's first primary key is 1. */
    constructor ()
      ensures Valid() && appointments == [] && nextId == 1
    {
      appointments := [];
      nextId := 1;
    }

    /** `AppointmentListView` GET. */
    method List(c: Caller) returns (r: Result<seq<Appointment>, ApiError>)
      ensures r == ListResponse(c, appointments)
    {
      if HasPermission(c, GET) {
        r := Ok(Queryset(c, appointments));
      } else {
        r := Err(Forbidden);
      }
    }

    /** `AppointmentDetailView` GET by id. */
    method Retrieve(c: Caller, id: AppointmentId) returns (r: Result<Appointment, ApiError>)
      ensures r == GetObject(c, appointments, id, GET)
    {
      r := GetObject(c, appointments, id, GET);
    }

    /** `AppointmentListView` POST: `has_permission`, the serializer, then `perform_create`. */
    method Create(c: Caller, data: AppointmentData) returns (r: Result<Appointment, ApiError>)
      requires Valid()
      modifies this
      ensures Valid()
      ensures Outcome(State(), r) == CreateOutcome(old(State()), c, data)
    {
      CreateKeepsValid(State(), c, data);
      if !HasPermission(c, POST) {
        return Err(Forbidden);
      }
      var fields := CheckRequired(data, false);
      if fields.Err? {
        return Err(fields.error);
      }
      match Validate(c, fields.value)
      case Err(e) =>
        r := Err(e);
      case Ok(valid) =>
        var a := Build(nextId, valid);
        appointments := appointments + [a];
        nextId := nextId + 1;
        r := Ok(a);
    }

    /** `AppointmentDetailView` PUT or PATCH. */
    method Update(c: Caller, id: AppointmentId, data: AppointmentData, partial: bool)
      returns (r: Result<Appointment, ApiError>)
      requires Valid()
      modifies this
      ensures Valid()
      ensures Outcome(State(), r) == UpdateOutcome(old(State()), c, id, data, partial)
    {
      UpdateKeepsValid(State(), c, id, data, partial);
      var found := GetObject(c, appointments, id, if partial then PATCH else PUT);
      if found.Err? {
        return Err(found.error);
      }
      var fields := CheckRequired(data, partial);
      if fields.Err? {
        return Err(fields.error);
      }
      match Validate(c, fields.value)
      case Err(e) =>
        r := Err(e);
      case Ok(valid) =>
        var b := ApplyChanges(found.value, valid);
        appointments := ReplaceById(appointments, b);
        r := Ok(b);
    }

    /** `AppointmentDetailView` DELETE. */
    method Delete(c: Caller, id: AppointmentId) returns (r: Result<(), ApiError>)
      requires Valid()
      modifies this
      ensures Valid()
      ensures Outcome(State(), r) == DeleteOutcome(old(State()), c, id)
    {
      DeleteKeepsValid(State(), c, id);
      var found := GetObject(c, appointments, id, DELETE);
      if found.Err? {
        return Err(found.error);
      }
      appointments := RemoveById(appointments, id);
      r := Ok(());
    }
  }
}
