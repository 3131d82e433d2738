# Clinic booking access control and validation, in Dafny

This project models the decision logic of a clinic service-booking backend,
written with Django and the Django REST framework. Clients book services
("registered services"). Doctors (employees) carry them out. Administrators
and managers keep the service catalog.

The model covers:

- **Permission classes** (`Permissions`): `IsAuthenticated`, `IsAdmin`,
  `IsManager`, `IsAdminOrManager`, `IsBanned` and the object-level
  `IsOwnerOrAdmin` check, plus the order in which the framework evaluates a
  view's list of them.
- **Booking record** (`Bookings`): its fields, which of them are nullable,
  its defaults and its four status codes. It also holds the client and
  doctor profiles a booking points at, and the mutable model instance.
- **Booking serializers** (`BookingSerializers`): the strictly-future date
  rule, the rule that `status_paid` may not change, and the in-place
  `update`.
- **Booking viewset** (`BookingViews`): which permission classes guard each
  action, and which bookings a caller's list holds, ordered by date, latest
  first. It also decides a request from caller, action and booking table.
- **Users** (`Users`): flag defaults, the role rule of `clean` (run by a
  `pre_save` hook on every save), and `create_user` / `create_superuser`.
- **Registration serializer** (`Registration`): `validate` and the
  role-gated profile creation in `create`.
- **Catalog viewsets** (`CatalogViews`): reads are open to everyone; writes
  need an admin or a manager.

Time is an integer. The current time is a parameter (`now`).

Framework behaviour is stated in `Permissions` as an assumption:

- permission classes are checked in list order, and the first refusal
  decides;
- an unauthenticated caller who is refused gets 401, a signed-in one gets
  403;
- object permissions run only for single-object actions, after every
  `has_permission` passed.

A Python attribute error is modelled as a `Crash` value (HTTP 500). The
model covers two places that raise (a third, in the response shaping, is
listed under "## Left out"):

- `IsOwnerOrAdmin` reaches `obj.doctor.user` on a booking with no doctor;
- the list query reads `user.client.pk` or `user.employee.pk` of a user
  without that profile.

Behaviour of the code worth knowing:

- A change of `status_paid` through the update serializer is not rejected.
  The field is read-only, so the incoming value is silently dropped, and
  `validate_status_paid` never runs. It is modelled on its own.
- The create action asks only for authentication. Any signed-in user may
  create a booking for any client; no client id is forced.
- The list order is descending `date_services` with no tie-break.
- No status transition rule exists. The status is a free string of at most
  15 characters.
- A non-owner asking for an existing booking gets 403, not 404.

## Model

| member | source | states |
|---|---|---|
| `Users.Clean` | backend/apps/users/models.py:74-77 | refuses exactly the non-superuser with neither `is_client` nor `is_employee`, with the role error |
| `Users.NewUser` | backend/apps/users/models.py:18 | a flag given as a keyword argument takes that value's truthiness, an absent one its column default (only `is_active` on); id, email and password are the given ones, with no groups and no profiles |
| `Users.DefaultFlags` | backend/apps/users/models.py:53-59 | a user built with no flag arguments has only `is_active` set, and `clean` refuses it |
| `Users.WithSuperuserDefaults` | backend/apps/users/models.py:25-27 | supplied flags keep their values; `is_active`, `is_staff`, `is_superuser` become True only where absent |
| `Users.TruthyNonTrueIsRefused` | backend/apps/users/models.py:29-30 | the `is not True` test refuses a truthy non-boolean such as `1`, although that value would make the user a superuser |
| `Users.UserManager.Save` | backend/apps/clients/models.py:47-49 | a save first runs `clean`, then the unique email column; a refused row leaves the table unchanged and the table invariant (every row has a role, unique non-empty emails) is kept |
| `Users.UserManager.CreateUser` | backend/apps/users/models.py:13-21 | empty email refused first; otherwise the built user is saved exactly when it has a role and its email is new, and appended to the table; every supplied flag is stored as its value's truthiness |
| `Users.UserManager.CreateSuperuser` | backend/apps/users/models.py:23-32 | refuses an `is_superuser` that is supplied and not exactly True, before looking at the email; on success the stored user is a superuser built from the defaulted flags |
| `Bookings.StatusServices.Code` | backend/apps/clients/models.py:55-59 | each status code is two characters |
| `Bookings.StatusCodesDistinct` | backend/apps/clients/models.py:55-59 | the four codes CR, PR, DO, CA are pairwise distinct and fit the 15-character column |
| `Bookings.NewBooking` | backend/apps/clients/models.py:61-72 | a new booking fits its status column |
| `Bookings.NewBookingDefaults` | backend/apps/clients/models.py:61-72 | a new booking has status CR, null paid/analysis/visit flags, and the given client, service, date and optional doctor |
| `Permissions.HasPermission` | backend/core/permissions.py:10-34 | only `AllowAny` and the default of `IsOwnerOrAdmin` let an unauthenticated caller through; a superuser passes every class except `IsManager` without the group; a manager passes every class except `IsAdmin`; a signed-in user who is neither passes exactly `AllowAny`, `IsAuthenticated` and `IsOwnerOrAdmin` |
| `Permissions.AnonymousPassesOnlyOpenClasses` | backend/core/permissions.py:1-34 | the anonymous user passes `AllowAny` and the default `has_permission` of `IsOwnerOrAdmin`, and no other class |
| `Permissions.SuperuserOwnsAll` | backend/core/permissions.py:51-53 | a superuser is granted every booking, whoever owns it |
| `Permissions.OwnerOrAdmin` | backend/core/permissions.py:51-56 | raises for the anonymous caller; for a user, grants iff the user is a superuser, or a client whose user is the booking's client's user, or an employee whose user is the booking's doctor's user |
| `Permissions.OwnerOrAdminCrashesOnlyOnMissingDoctor` | backend/core/permissions.py:55 | for a user the check raises iff it reaches the doctor axis of a booking without a doctor |
| `Permissions.OwnershipNeedsFlag` | backend/core/permissions.py:54 | while `is_client` is off, unlinking the booking's client's user changes nothing, so being that user grants nothing |
| `Permissions.OwnerOrAdminMonotone` | backend/core/permissions.py:52-56 | turning on `is_superuser`, `is_client` or `is_employee` never turns a grant into a refusal |
| `Permissions.Refuse` | backend/tests/clients/test_urls_clients.py:243-277 | a refusal is never a grant, and is "not authenticated" iff the caller is anonymous |
| `Permissions.CheckPermissions` | backend/apps/clients/views.py:22 | grants iff every listed class grants; otherwise the refusal is that of the first refusing class |
| `Permissions.CheckObjectPermissions` | backend/tests/clients/test_urls_clients.py:157-166 | grants iff every listed class's object check grants; otherwise the first class whose object check does not grant decides: its refusal, or its raise |
| `BookingSerializers.ValidateDateServices` | backend/apps/clients/serializers/reg_services.py:48-71 | a date at or before now is refused; a later one is returned unchanged (create and update serializers alike) |
| `BookingSerializers.ValidateStatusPaid` | backend/apps/clients/serializers/reg_services.py:73-79 | with an instance, accepts iff the value equals the stored `status_paid`; without one, accepts anything; returns the value |
| `BookingSerializers.ApplyPatch` | backend/apps/clients/serializers/reg_services.py:83 | every supplied field takes the supplied value; absent fields and the pk keep the row's |
| `BookingSerializers.WithoutStatusPaid` | backend/apps/clients/serializers/reg_services.py:82 | the popped data has no `status_paid` key, and on any row it assigns exactly what the full data would, except `status_paid` |
| `BookingSerializers.EmptyPatchIsIdentity` | backend/apps/clients/serializers/reg_services.py:81-83 | validated data with no keys changes no field |
| `BookingSerializers.ApplyPatchWellFormed` | backend/apps/clients/models.py:67-69 | a status that fits the column still fits after an update with a fitting status |
| `BookingSerializers.PoppedPatchKeepsStatusPaid` | backend/apps/clients/serializers/reg_services.py:81-83 | after the pop no update changes `status_paid`, while a supplied status is written as given |
| `BookingSerializers.Update` | backend/apps/clients/serializers/reg_services.py:81-83 | the instance becomes the old row with every supplied field except `status_paid` assigned; `status_paid` and pk unchanged |
| `BookingSerializers.ValidatedUpdate` | backend/apps/clients/serializers/reg_services.py:58-83 | fails iff a supplied date is not after now; on success `status_paid` and pk are unchanged and the rest of the payload is applied |
| `BookingSerializers.OnlyAnalysisFlagChanges` | backend/tests/clients/test_urls_clients.py:227-236 | a payload with only the analysis flag succeeds and changes nothing else |
| `BookingSerializers.AnyStatusReachable` | backend/tests/clients/test_urls_clients.py:215-236 | from any prior status an update may set DO, or go back to CR |
| `BookingViews.Filter` | backend/apps/clients/views.py:31-38 | each row appears as often as in the table when in scope, and not at all otherwise |
| `BookingViews.Insert` | backend/apps/clients/views.py:30-38 | inserting into a date-descending list keeps it descending and adds exactly that row |
| `BookingViews.SortByDateDesc` | backend/apps/clients/views.py:30-38 | the result is in descending date order and is a permutation of the input |
| `BookingViews.ListScope` | backend/apps/clients/views.py:28-38 | raises iff the caller is anonymous or a non-superuser lacks the profile of a role flag it holds; scope is everything iff superuser; otherwise a booking is in scope iff it is the user's own on an axis whose flag is on |
| `BookingViews.ListQuery` | backend/apps/clients/views.py:24-42 | succeeds iff the scope does; the list is in descending date order and holds each in-scope table row as often as the table does, and no other row |
| `BookingViews.SuperuserListsEverything` | backend/apps/clients/views.py:29-30 | a superuser's list, whatever other flags the user has, is a permutation of the whole table |
| `BookingViews.RolelessListsNothing` | backend/apps/clients/views.py:26 | a non-superuser with neither role flag gets the empty list |
| `BookingViews.ListCrashesOnlyWithoutProfile` | backend/apps/clients/views.py:31-38 | the list raises iff a non-superuser lacks the profile of a role flag it holds |
| `BookingViews.ScopeAgreesWithOwnerOrAdmin` | backend/apps/clients/views.py:31-38 | for a user linked one-to-one with its profiles, the list filter holds a booking iff `IsOwnerOrAdmin` grants it |
| `BookingViews.ListAgreesWithOwnerOrAdmin` | backend/apps/clients/views.py:28-38 | a table row is in a user's list iff `IsOwnerOrAdmin` grants that row to the user |
| `BookingViews.UniquePksCountOnce` | backend/apps/clients/views.py:35-38 | a table with unique pks holds each row at most once |
| `BookingViews.ListHasNoDuplicates` | backend/apps/clients/views.py:35-38 | over unique pks each listed row appears exactly once, a row matching both axes included |
| `BookingViews.DualRoleScenario` | backend/apps/clients/views.py:35-38 | client 1 / doctor 7 sees the bookings (1, 9) and (2, 7) and not (3, 3) |
| `BookingViews.Lookup` | backend/apps/clients/views.py:39-40 | finds a row of the whole table with the pk, and finds none iff no row has it |
| `BookingViews.BookingPermissions` | backend/apps/clients/views.py:13-22 | every action's first class refuses the anonymous caller; list and create answer 401 to the anonymous caller and grant every signed-in user; `IsOwnerOrAdmin` guards exactly retrieve, create and the two updates; `IsAdmin` exactly destroy |
| `BookingViews.Handle` | backend/apps/clients/views.py:13-40 | a failed permission check is the answer; a signed-in caller's list request gets its list query, or a server error when that raises; create is handed on iff signed in; a row is handed to a single-object action only if it is the one with the pk and (destroy) the caller is an admin or (otherwise) `IsOwnerOrAdmin` grants it |
| `BookingViews.AnonymousNotAuthenticated` | backend/apps/clients/views.py:13-22 | the anonymous caller gets 401 on every action |
| `BookingViews.DestroyOnlyBySuperuser` | backend/apps/clients/views.py:18-19 | destroy is refused by `IsAdmin` to every non-superuser, owners included; a superuser gets the row or 404 |
| `BookingViews.CreateOpenToSignedIn` | backend/apps/clients/views.py:20-21 | every signed-in user passes the create checks |
| `BookingViews.ObjectActionsFollowOwnerOrAdmin` | backend/apps/clients/views.py:16-40 | on retrieve and update an existing row is refused with `IsOwnerOrAdmin` (not 404) when the check refuses, and handed over when it grants |
| `BookingViews.MissingRowNotFound` | backend/apps/clients/views.py:39-40 | retrieve and update of a pk no row has give 404 |
| `BookingViews.ObjectCheckRaiseIsServerError` | backend/core/permissions.py:55 | on retrieve and update, an `IsOwnerOrAdmin` check that raises on an existing row is answered with a server error carrying that crash |
| `BookingViews.EndpointAgreesOnHarmlessPayload` | backend/apps/clients/views.py:11 | without `status_paid` and without a past date, the endpoint's update and the update serializer give the same row |
| `BookingViews.EndpointChangesStatusPaid` | backend/apps/clients/views.py:11 | the endpoint's update sets `status_paid`, where the update serializer keeps it |
| `BookingViews.EndpointAcceptsPastDate` | backend/apps/clients/views.py:11 | the endpoint's update writes a past date, where the update serializer refuses it |
| `Registration.Validate` | backend/apps/users/serializers/users.py:34-45 | password mismatch refused first; then both roles explicitly False refused; otherwise returns the data with only `password2` removed |
| `Registration.RoleExtra` | backend/apps/users/serializers/users.py:53 | the user is built from exactly the role flags the request supplied, with the request's values |
| `Registration.RolelessPayloadCaughtOnlyBySave` | backend/apps/users/serializers/users.py:42-43 | a payload omitting both role flags passes `validate` but builds a user that `clean` refuses |
| `Registration.Create` | backend/apps/users/serializers/users.py:47-60 | succeeds iff `create_user` accepts the user and each profile asked for (role flag on, profile data truthy) is valid; the user is refused with the table unchanged; a refused client profile is reported before an employee one, and a refused profile leaves the built user saved |
| `CatalogViews.LandingAndDoctorsOpen` | backend/apps/catalog/views.py:13-67 | the catalog landing page and the doctors viewset are granted to everyone |
| `CatalogViews.CategoryPermissions` | backend/apps/catalog/views.py:34-39 | list and retrieve are granted to everyone, anonymous included; any other action gives 401 anonymous, is granted to admins and managers, and gives 403 to everyone else |
| `CatalogViews.ServicePermissions` | backend/apps/catalog/views.py:51-56 | the same decisions with `IsAdminOrManager` alone guarding the writes: granted iff the caller is a superuser or in the Managers group, 401 for the anonymous caller, 403 otherwise |

## Findings

| source | as written | input that shows it | evidently intended | confidence | as-written member | corrected member |
|---|---|---|---|---|---|---|
| backend/apps/clients/views.py:11 | the viewset serves every action with the plain booking serializer, whose update writes every supplied field, `status_paid` included | the booking's own client sends PATCH `{"status_paid": true}` on a booking whose `status_paid` is null | updates go through `UpdateRegistredServiceSerializer`, where `status_paid` is read-only and never changes | medium, not executed | `BookingViews.EndpointChangesStatusPaid` | `BookingSerializers.ValidatedUpdate` |
| backend/apps/clients/views.py:11 | the same plain serializer has no date rule, so an update accepts a `date_services` in the past | PATCH `{"date_services": now - 1}` by an owner | the strictly-future rule of the update serializer applies | low: the full-update test at backend/tests/clients/test_urls_clients.py:215-225 sends back the stored date and expects 200, and the fixture dates may lie in the past, so that test relies on past dates passing; not executed | `BookingViews.EndpointAcceptsPastDate` | `BookingSerializers.ValidatedUpdate` |

## Left out

- HTTP routing, JSON shaping, admin classes, migrations, settings and
  management commands: they hold no decision logic.
- The `get_info_*` lookups of the booking serializer are not modelled.
  `get_info_doctor` (backend/apps/clients/serializers/reg_services.py:39-42)
  reads `obj.doctor.pk`, so rendering a booking without a doctor raises. A
  list holding such a booking, or a granted retrieve of one, is answered
  with 500 in the source, where the model's `Listed` and `ObjectGranted`
  outcomes stop before rendering.
- Field-level validation (types, required fields, the 15-character status
  limit) is assumed done before the serializer hooks run.
  `BookingSerializers.PatchWellFormed` states the status limit.
- Time is an integer. The ISO-format round trip in the date validators is
  the identity, and `timezone.now()` is the parameter `now`.
- `normalize_email` is the identity. `set_password` stores the given
  password; hashing is not modelled.
- Users.UserManager.CreateUser: a flag value that is not a boolean is read
  by Python truthiness. Django's conversion of such values on save is not
  modelled.
- Registration.Create: the client and employee profile rows and the second
  `user.save()` after linking a profile are not modelled. Whether the nested
  profile serializers accept their data is an input.
- Registration.Create: djoser's own create step is modelled as a plain
  `create_user`. The activation-email setting that then clears `is_active`
  is not modelled.
- `IsBanned` is attached to no view. Its `has_permission` also lacks the
  `view` parameter the framework passes. It is modelled as the predicate
  `Permissions.NotBanned`.
- BookingViews.SortByDateDesc: the order of bookings with equal dates is not
  promised, because the source gives no tie-break.
- BookingViews.Lookup: the table may hold only one row per pk
  (`BookingViews.UniquePks`). Foreign-key integrity is not modelled; a
  profile pk with no row reads as having no user.
- Users.UserManager.CreateUser: user pks are modelled as consecutive
  (`id == i + 1`). A database sequence also spends a value on an insert the
  unique email column refuses, so real pks can skip; no decision in the
  model depends on the pk values.
- Concurrency and transactions: every decision is a function of one snapshot.
