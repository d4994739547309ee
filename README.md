# HealthSync appointment access control, in Dafny

HealthSync is a clinic-scheduling backend built with Django and Django REST
framework. Its users are patients, doctors and administrators (staff). This
project models the decision logic of its appointment API and proves properties
of that model:

- the two permission classes that decide who may use which HTTP method on
  appointments;
- the role-scoped queryset that both appointment views share (staff see every
  appointment, a doctor sees their own, anyone else sees none), and lookup by id
  inside it;
- the list/create and retrieve/update/destroy endpoints as transitions of an
  appointment table, with an `AppointmentStore` class whose methods follow them;
- the appointment serializer's staff-only `validate` guard, its field list and
  its representation;
- the registration serializer: password confirmation, the user row `create`
  builds, and the representations of registration and profile;
- the model records (User, Doctor, Patient, Appointment), their defaults, their
  gender choices and their display strings.

A caller is `Caller(isStaff, doctor)`. `doctor` is the linked Doctor profile, if
one exists: the view code's `hasattr(user, 'doctor')`. The User's `is_doctor`
flag is a separate field. It plays no part in any decision, and
`UserModels.DoctorRoleIsProfileNotFlag` and `Permissions.DoctorFlagGrantsNothing`
prove this. `Permissions.Role` (Admin, DoctorRole(d), Other) is a reference role
table. The two permission functions and the queryset are each proved equal to it.

Django REST framework decides the order in which the checks run. The model fixes
that order as an assumption:

- List view: `has_permission`, then `get_queryset` (GET) or the serializer and
  `perform_create` (POST).
- Detail view: its permission class keeps the default `has_permission`, which
  always grants. Then comes lookup by id in the scoped queryset (404), then
  `has_object_permission` (403), then the serializer, then the write.

What the code does in the cases that are easy to misread:

- A caller with neither role gets 403 on the list GET, because
  `has_permission` refuses it before `get_queryset` runs. The empty branch of
  `get_queryset` shows only on the detail view, as 404.
- A doctor asking for another doctor's appointment gets 404, because the
  lookup runs inside that doctor's own queryset.
- The serializer's staff-only guard never decides an outcome. By the time a
  write reaches it, the permission checks have already refused every non-staff
  caller (`AppointmentViews.NonStaffCreateChangesNothing`,
  `NonStaffUpdateChangesNothing`, `NonStaffDeleteChangesNothing`).

Files: `wrappers.dfy` (Option, Result); `api.dfy` (HTTP methods, `SAFE_METHODS`,
error responses, serialized values); `seqs.dfy` (the subsequence relation);
`users_models.dfy`, `users_serializers.dfy`, `appointments_models.dfy`,
`appointments_serializers.dfy`, `appointments_permissions.dfy` and
`appointments_views.dfy`, one per source file.

## Model

| member | source | states |
|---|---|---|
| UserModels.NewUser | src/apps/users/models.py:18-20 | a new user row has is_doctor, is_patient and is_staff false, no phone number, empty names and no password |
| UserModels.UserStr | src/apps/users/models.py:22-29 | a user's string form is its username |
| UserModels.DoctorStr | src/apps/users/models.py:50-57 | a doctor's string is the username, " - ", the specialization and a trailing space, each at its exact position |
| UserModels.DoctorDetails | src/apps/users/models.py:58-65 | the details string is "Doctor ", the full name, " specializes in ", the specialization and a final "." |
| UserModels.GenderCode | src/apps/users/models.py:85-92 | the stored gender is a one-character code that appears in GENDER_CHOICES |
| UserModels.ParseGender | src/apps/users/models.py:85-92 | a stored code is accepted exactly when it is one of the GENDER_CHOICES codes |
| UserModels.GenderCodeRoundTrip | src/apps/users/models.py:85-92 | storing a gender and reading it back gives the same gender, and every accepted code reads back to itself |
| UserModels.GenderDisplay | src/apps/users/models.py:85-88 | the displayed label is the one GENDER_CHOICES pairs with the stored code |
| UserModels.PatientStr | src/apps/users/models.py:94-101 | a patient's string is "Patient: " followed by the username, which can be read back from it |
| UserModels.PatientStrUsername | src/apps/users/models.py:101 | a string has the patient form exactly when it starts with "Patient: ", and the rest is the username |
| UserModels.PatientDetails | src/apps/users/models.py:103-110 | the details string is the username, " (", the gender label, "), born on " and the date text, each at its exact position, and nothing else |
| UserModels.DoctorProfileOf | src/apps/users/models.py:47 | the reverse accessor user.doctor finds a profile linked to that user, or reports that none exists |
| UserModels.DoctorProfileOfLinked | src/apps/users/models.py:47 | under the one-to-one link, looking up a doctor's user yields that very doctor |
| UserModels.PatientProfileOf | src/apps/users/models.py:90 | the reverse accessor user.patient finds a profile linked to that user, or reports that none exists |
| UserModels.PatientProfileOfLinked | src/apps/users/models.py:90 | under the one-to-one link, looking up a patient's user yields that very patient |
| UserModels.CallerOf | src/apps/appointments/permissions.py:12-16 | the caller keeps the user's is_staff flag and has a doctor exactly when a profile links to that user |
| UserModels.DoctorRoleIsProfileNotFlag | src/apps/appointments/permissions.py:16 | the caller does not depend on is_doctor: for any profile table, a flagged user with no linked profile is not a doctor, and a linked unflagged user is |
| AppointmentModels.NewAppointment | src/apps/appointments/models.py:5-9 | a new appointment keeps its one patient, one doctor and time; is_completed is false unless true was given |
| AppointmentModels.StatusWord | src/apps/appointments/models.py:17 | the status word is "Completed" exactly when completed and "Pending" exactly when not |
| AppointmentModels.OrFallback | src/apps/appointments/models.py:12-13 | Python's `or` on strings gives the name when it is non-empty and the fallback otherwise, never an empty string |
| AppointmentModels.DoctorName | src/apps/appointments/models.py:12 | the doctor name is the last name, or "Unknown Doctor" when it is empty |
| AppointmentModels.PatientName | src/apps/appointments/models.py:13 | the patient name is the full name, or "Unknown Patient" when it is empty |
| AppointmentModels.AppointmentStr | src/apps/appointments/models.py:11-14 | the string form is "Appointment with Dr. ", the doctor name, " for ", the patient name, " on " and the time text, at exact positions |
| AppointmentModels.AppointmentDetails | src/apps/appointments/models.py:16-21 | the details string is the `__str__` layout with the strftime text in place of `str(scheduled_at)`, then ". Status: ", the status word and ".", and nothing else |
| AppointmentModels.DetailsStatus | src/apps/appointments/models.py:21 | a status read back from a details string is backed by the matching suffix |
| AppointmentModels.DetailsStatusRoundTrip | src/apps/appointments/models.py:16-21 | the details string always tells the completion status it was built from |
| Permissions.HasPermission | src/apps/appointments/permissions.py:10-20 | view permission holds exactly for the methods the role table allows: all for staff, the safe ones for a doctor, none otherwise |
| Permissions.HasObjectPermission | src/apps/appointments/permissions.py:27-37 | object permission holds exactly for the methods the role table allows: all for staff, the safe ones for the owning doctor, none otherwise |
| Permissions.StaffAlwaysGranted | src/apps/appointments/permissions.py:12-13 | staff are granted every method by both checks, whoever owns the appointment |
| Permissions.DoctorViewPermissionIsSafe | src/apps/appointments/permissions.py:16-20 | a non-staff doctor has view permission exactly for the safe methods, and never for POST, PUT, PATCH or DELETE |
| Permissions.NoProfileDenied | src/apps/appointments/permissions.py:16-20 | a non-staff caller without a doctor profile is denied every method by both checks |
| Permissions.DoctorObjectPermission | src/apps/appointments/permissions.py:33-37 | for the owning doctor, object permission is "method is safe"; for any other doctor it is always denied |
| Permissions.NonStaffNeverGrantedUnsafe | src/apps/appointments/permissions.py:10-37 | neither check grants a non-staff caller an unsafe method |
| Permissions.ObjectPermissionImpliesViewPermission | src/apps/appointments/permissions.py:10-37 | whatever the object check grants, the view check grants too |
| Permissions.DoctorFlagGrantsNothing | src/apps/appointments/permissions.py:16 | for any profile table and any value of is_doctor, a non-staff user with no linked profile may not even read, and a user with a linked profile may read |
| AppointmentSerializers.CheckRequired | src/apps/appointments/serializers.py:20-22 | a full write must supply patient, doctor and scheduled_at; otherwise it fails with one "required" error for each missing field and for no other; a partial write always passes |
| AppointmentSerializers.Validate | src/apps/appointments/serializers.py:24-40 | validation succeeds exactly for staff, returns the data unchanged, and otherwise raises the staff-only error |
| AppointmentSerializers.ValidateIgnoresData | src/apps/appointments/serializers.py:37-40 | acceptance depends only on is_staff and the rejection does not depend on the data |
| AppointmentSerializers.Build | src/apps/appointments/views.py:24-26 | the created row has the next id and the supplied fields, with is_completed true only when true was given |
| AppointmentSerializers.ApplyChanges | src/apps/appointments/serializers.py:20-22 | an update replaces each supplied field, keeps every other field and never changes the id |
| AppointmentSerializers.ApplyChangesIdentity | src/apps/appointments/serializers.py:20-22 | writing an appointment's own fields, or writing nothing, leaves it as it was |
| AppointmentSerializers.ToRepresentation | src/apps/appointments/serializers.py:20-22 | the representation has exactly id, patient, doctor, scheduled_at and is_completed, and reads back to the same appointment |
| AppointmentSerializers.FromRepresentation | src/apps/appointments/serializers.py:22 | an appointment is read back only from an object that has every declared field |
| AppointmentViews.FilterByDoctor | src/apps/appointments/views.py:17-19 | the filter keeps exactly the doctor's rows, each as often as stored, in table order |
| AppointmentViews.Queryset | src/apps/appointments/views.py:12-22 | the queryset holds exactly the rows the role may see, with their multiplicities and in table order: all for staff, none without a doctor profile |
| AppointmentViews.QuerysetWithinStore | src/apps/appointments/views.py:12-22 | the queryset is contained in the table and no longer than it |
| AppointmentViews.StaffPrecedence | src/apps/appointments/views.py:14-19 | a staff caller who also has a doctor profile sees the whole table |
| AppointmentViews.DoctorSeesNoOtherDoctor | src/apps/appointments/views.py:17-19 | a non-staff doctor never sees an appointment of another doctor |
| AppointmentViews.DoctorOwningAllSeesAll | src/apps/appointments/views.py:17-19 | a doctor who owns every appointment in the table sees the whole table |
| AppointmentViews.FindById | src/apps/appointments/views.py:32 | lookup by id returns a row with that id, and returns nothing exactly when no row has it |
| AppointmentViews.GetObject | src/apps/appointments/views.py:29-44 | the detail lookup searches the caller's queryset only: 404 exactly when no visible row has the id, 403 when the visible row fails the object check |
| AppointmentViews.GetObjectFindsVisibleRow | src/apps/appointments/views.py:32-44 | with unique ids, the lookup returns exactly the visible row with that id, or 403 if the object check refuses |
| AppointmentViews.ReplaceById | src/apps/appointments/views.py:29 | saving an updated row keeps the table's length, puts the row in place of the stored row with its id and leaves every other row as it was |
| AppointmentViews.RemoveById | src/apps/appointments/views.py:29 | deleting an id keeps every other row and its order and drops every row with that id |
| AppointmentViews.ListResponse | src/apps/appointments/views.py:8-22 | the list succeeds exactly for staff and doctors and returns the rows the role may see; everyone else gets 403 |
| AppointmentViews.CreateOutcome | src/apps/appointments/views.py:8-26 | a create succeeds exactly for staff with the required fields, appending the built row with the next id; a non-staff caller gets 403; a failure leaves the table unchanged |
| AppointmentViews.UpdateOutcome | src/apps/appointments/views.py:29-44 | a successful update is by staff, replaces the stored row with that id by the changed row, and keeps the id; a failure leaves the table unchanged |
| AppointmentViews.DeleteOutcome | src/apps/appointments/views.py:29-44 | a successful delete is by staff on an existing id and removes that id; a failure leaves the table unchanged |
| AppointmentViews.NonStaffCreateChangesNothing | src/apps/appointments/views.py:8-10 | a non-staff create gets 403 and leaves the table unchanged |
| AppointmentViews.NonStaffUpdateChangesNothing | src/apps/appointments/views.py:29-31 | a non-staff update leaves the table unchanged and gets 403 or 404, never a validation error |
| AppointmentViews.NonStaffDeleteChangesNothing | src/apps/appointments/views.py:29-31 | a non-staff delete leaves the table unchanged and gets 403 or 404 |
| AppointmentViews.ReplaceKeepsValid | src/apps/appointments/views.py:29 | replacing a row with one carrying its id keeps ids unique and below the next id |
| AppointmentViews.CreateKeepsValid | src/apps/appointments/views.py:24-26 | creating keeps ids unique and below the next id |
| AppointmentViews.UpdateKeepsValid | src/apps/appointments/views.py:29-44 | updating keeps ids unique and below the next id |
| AppointmentViews.DeleteKeepsValid | src/apps/appointments/views.py:29-44 | deleting keeps ids unique and below the next id |
| AppointmentViews.CreateThenRetrieve | src/apps/appointments/views.py:24-44 | a created appointment has the supplied fields, and retrieving its id returns it to staff and to its doctor |
| AppointmentViews.OwnerDoctorUpdateForbidden | src/apps/appointments/permissions.py:33-34 | the owning doctor's PATCH or PUT of their own appointment gets 403 and leaves the table unchanged |
| AppointmentViews.OwnerDoctorDeleteForbidden | src/apps/appointments/permissions.py:33-34 | the owning doctor's DELETE of their own appointment gets 403 and leaves the table unchanged |
| AppointmentViews.StaffPatchCompletes | src/apps/appointments/views.py:29-44 | staff setting is_completed by PATCH get the updated appointment back, and a later GET returns it |
| AppointmentViews.StaffUpdateSucceeds | src/apps/appointments/views.py:28-29 | staff updating an existing appointment get the changed row back (for PUT, when the required fields are given) |
| AppointmentViews.StaffDeleteSucceeds | src/apps/appointments/views.py:28-29 | staff deleting an existing appointment succeed |
| AppointmentViews.DeleteThenNotFound | src/apps/appointments/views.py:29-44 | after a delete, the id is not found for any caller |
| AppointmentViews.AppointmentStore.constructor | src/apps/appointments/views.py:8-9 | an empty table whose first id is 1 |
| AppointmentViews.AppointmentStore.List | src/apps/appointments/views.py:12-22 | GET on the list returns the list response for the stored table |
| AppointmentViews.AppointmentStore.Retrieve | src/apps/appointments/views.py:34-44 | GET by id returns the scoped, permission-checked lookup |
| AppointmentViews.AppointmentStore.Create | src/apps/appointments/views.py:24-26 | POST moves the table and the response exactly as CreateOutcome says and keeps ids valid |
| AppointmentViews.AppointmentStore.Update | src/apps/appointments/views.py:29-44 | PUT or PATCH moves the table and the response exactly as UpdateOutcome says and keeps ids valid |
| AppointmentViews.AppointmentStore.Delete | src/apps/appointments/views.py:29-44 | DELETE moves the table and the response exactly as DeleteOutcome says and keeps ids valid |
| UserSerializers.ValidateRegistration | src/apps/users/serializers.py:16-19 | registration passes exactly when the two passwords are equal, returns the attributes unchanged, and otherwise fails with the error keyed "password" |
| UserSerializers.CreateAsWritten | src/apps/users/serializers.py:21-30 | create as written succeeds exactly when email, is_doctor and is_patient were all supplied |
| UserSerializers.CreateAsWrittenRejectsMinimalRegistration | src/apps/users/serializers.py:22-27 | a registration with only a username and matching passwords passes validate but create as written fails on "email" |
| UserSerializers.RegisteredUser | src/apps/users/serializers.py:21-30 | the registered user has the given username, email and flags (model defaults when absent), is not staff, and has the hashed password |
| UserSerializers.RegisterRepresentation | src/apps/users/serializers.py:9-14 | the registration response holds exactly username, email, is_doctor and is_patient, never the write-only passwords |
| UserSerializers.ProfileRepresentation | src/apps/users/serializers.py:34-37 | the profile holds exactly the eight declared fields and no password |
| UserSerializers.ProfileFromRepresentation | src/apps/users/serializers.py:37 | a user read back from a profile gets the staff flag and password supplied from outside |
| UserSerializers.ProfileRoundTrip | src/apps/users/serializers.py:37 | a profile holds enough to read the user back exactly |
| UserSerializers.RegisteredProfileEchoesInput | src/apps/users/serializers.py:21-37 | a registered user's profile shows the registered username, email and flags (empty email and false flags when omitted) and no password |
| UserSerializers.UserTable.Create | src/apps/users/serializers.py:21-30 | the corrected create: it inserts the row, sets the password and saves it, appending exactly the registered user (model defaults for omitted optional fields) with the next id, and keeps ids distinct and rows within their column widths |
| UserSerializers.UserTable.Register | src/apps/users/serializers.py:16-30 | registration appends the registered user exactly when the passwords match, and otherwise fails on "password" with the table unchanged |

## Findings

| source | as written | input that shows it | evidently intended | confidence | as-written member | corrected member |
|---|---|---|---|---|---|---|
| src/apps/users/serializers.py:22-27 | `create` reads `validated_data['email']`, `['is_doctor']` and `['is_patient']` by key. These fields are optional (a blank-able column and two columns with defaults), so a request that leaves one out does not put it in `validated_data`, and `create` raises KeyError | a registration with only `username`, `password` and matching `password2` | an omitted optional field takes its model default: empty email, flags false | medium (depends on how REST framework builds optional model fields); not executed | UserSerializers.CreateAsWritten, UserSerializers.CreateAsWrittenRejectsMinimalRegistration | UserSerializers.RegisteredUser, UserSerializers.UserTable.Create, UserSerializers.UserTable.Register |

## Left out

- The appointment-count endpoint (date range, status and doctor filters, grouping by day): only the tests use it; no view or route for it exists in the code.
- The order in which Django REST framework runs permission checks, lookup and serializer validation is framework behaviour; the model assumes the order stated above.
- HEAD and OPTIONS responses on the endpoints (metadata and header-only replies are framework behaviour); reads are modelled as GET.
- ORM persistence: the database is an abstract table with unique, increasing ids. Foreign-key existence checks on patient and doctor ids, CASCADE deletes and transactions are not modelled.
- Django's `get_full_name`, `strftime` and `str(datetime)` are library calls: their output is an input text of the display functions. Time zones are not modelled; a scheduled time is an integer instant.
- `set_password` hashing and the `validate_password` validators are library code: a password is kept as `Hashed(raw)`, and no strength rule is checked.
- Field-level validation of the user serializers (required username and passwords, unique username, email format, length limits) is framework behaviour and is not modelled; the appointment serializer's required-field check is.
- `src/apps/base_model.py` (created/updated timestamps) is not part of this model.
- JWT issuance, URL routing, the admin site, the API documentation views and `ProfileView` (which returns the caller's own user) are framework plumbing.
- Unauthenticated requests: REST framework may answer them 401 before any permission class runs; the model only covers authenticated callers, whose permission failures are 403.
- Concurrent requests are not modelled; each request is one atomic transition of the table.
