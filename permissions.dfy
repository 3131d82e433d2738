/**
  The permission classes of the backend and the way the REST framework
  evaluates a view's list of them.

  Framework behaviour stated here as an assumption, since it lives outside
  the backend's own code:
  - a view's permission classes are checked in list order and the first one
    that refuses decides the answer;
  - a refusal is "not authenticated" (HTTP 401) when the caller did not
    authenticate, and "forbidden" (HTTP 403) with the refusing class's
    message otherwise;
  - object permissions are checked, in the same order, only by actions that
    fetch a single object, and only after every `has_permission` passed;
    a class that does not override `has_object_permission` grants it.
 */
module Permissions {
  import opened Wrappers
  import opened Users
  import opened Bookings

  /** The request's principal: the anonymous user, or a stored user. */
  datatype Caller = Anonymous | Authenticated(user: User)

  /** The permission classes the views attach. */
  datatype PermissionClass = AllowAny | IsAuthenticated | IsAdmin | IsManager | IsAdminOrManager | IsOwnerOrAdmin

  /** The viewset actions the router dispatches to. */
  datatype Action = List | Retrieve | Create | Update | PartialUpdate | Destroy

  /** What a Python attribute access on the principal can raise. */
  datatype Crash = AttributeError | RelatedObjectDoesNotExist

  /** `IsAdmin`: `getattr(user, "is_superuser", False)`; the anonymous user has it false. */
  predicate Admin(c: Caller)
  {
    c.Authenticated? && c.user.isSuperuser
  }

  /** `IsManager`: membership in the group named "Managers"; the anonymous user has no groups. */
  predicate Manager(c: Caller)
  {
    c.Authenticated? && "Managers" in c.user.groups
  }

  /** `IsBanned`: access only while the user's ban flag is off. */
  predicate NotBanned(u: User)
  {
    !u.isBanned
  }

  /**
    `has_permission` of each class. `IsOwnerOrAdmin` keeps the default, which
    grants. Only the classes that do not look at the user let an anonymous
    caller through, and a superuser passes every class except `IsManager`,
    which asks for the group whoever the user is.
   */
  function HasPermission(p: PermissionClass, c: Caller): (granted: bool)
    ensures granted && p != AllowAny && p != IsOwnerOrAdmin ==> c.Authenticated?
    ensures Admin(c) ==> (granted <==> p != IsManager || Manager(c))
    ensures Manager(c) && p != IsAdmin ==> granted
    ensures c.Authenticated? && !Admin(c) && !Manager(c) ==>
              (granted <==> p == AllowAny || p == IsAuthenticated || p == IsOwnerOrAdmin)
  {
    match p
    case AllowAny => true
    case IsAuthenticated => c.Authenticated?
    case IsAdmin => Admin(c)
    case IsManager => Manager(c)
    case IsAdminOrManager => Admin(c) || Manager(c)
    case IsOwnerOrAdmin => true
  }

  /** The anonymous user passes only the classes whose `has_permission` does not look at the user. */
  lemma AnonymousPassesOnlyOpenClasses(p: PermissionClass)
    ensures HasPermission(p, Anonymous) <==> p == AllowAny || p == IsOwnerOrAdmin
  {
  }

  /**
    `IsOwnerOrAdmin.has_object_permission`, with Python's left-to-right
    short-circuit: a superuser; else a client whose user is the booking's
    client's user; else an employee whose user is the booking's doctor's
    user. Reading `doctor.user` of a booking without a doctor raises, and so
    does reading `is_client` of the anonymous user.
   */
  function OwnerOrAdmin(c: Caller, b: Booking, dir: Directory): (r: Result<bool, Crash>)
    ensures c.Anonymous? ==> r == Failure(AttributeError)
    ensures c.Authenticated? ==>
              (r == Success(true) <==> c.user.isSuperuser || ClientOwner(c.user, b, dir) || DoctorOwner(c.user, b, dir))
  {
    match c
    case Anonymous => Failure(AttributeError)
    case Authenticated(u) =>
      if u.isSuperuser then Success(true)
      else if u.isClient && Some(u.id) == ClientUserOf(dir, b.client) then Success(true)
      else if !u.isEmployee then Success(false)
      else match b.doctor
        case None => Failure(AttributeError)
        case Some(d) => Success(Some(u.id) == EmployeeUserOf(dir, d))
  }

  /** The client-side ownership axis: the flag and the identity must both hold. */
  predicate ClientOwner(u: User, b: Booking, dir: Directory)
  {
    u.isClient && ClientUserOf(dir, b.client) == Some(u.id)
  }

  /** The doctor-side ownership axis. */
  predicate DoctorOwner(u: User, b: Booking, dir: Directory)
  {
    u.isEmployee && b.doctor.Some? && EmployeeUserOf(dir, b.doctor.value) == Some(u.id)
  }

  /** A superuser is allowed on every booking, whoever owns it. */
  lemma SuperuserOwnsAll(u: User, b: Booking, dir: Directory)
    requires u.isSuperuser
    ensures OwnerOrAdmin(Authenticated(u), b, dir) == Success(true)
  {
  }

  /**
    For a user the rule only fails by raising when it reaches the doctor
    axis of a booking that has no doctor.
   */
  lemma OwnerOrAdminCrashesOnlyOnMissingDoctor(u: User, b: Booking, dir: Directory)
    ensures OwnerOrAdmin(Authenticated(u), b, dir).Failure? <==>
              !u.isSuperuser && !ClientOwner(u, b, dir) && u.isEmployee && b.doctor.None?
  {
  }

  /**
    While `is_client` is off, who the booking's client's user is does not
    matter: unlinking it changes nothing, so being that user grants nothing.
   */
  lemma OwnershipNeedsFlag(u: User, b: Booking, dir: Directory)
    requires !u.isClient
    ensures OwnerOrAdmin(Authenticated(u), b, dir) ==
            OwnerOrAdmin(Authenticated(u), b, dir.(clientUser := dir.clientUser[b.client := None]))
  {
  }

  /** `v` holds every role flag `u` holds, on the same user row. */
  predicate MoreFlags(u: User, v: User)
  {
    && v.id == u.id
    && (u.isSuperuser ==> v.isSuperuser)
    && (u.isClient ==> v.isClient)
    && (u.isEmployee ==> v.isEmployee)
  }

  /** Turning a role flag on never turns an allow into a deny. */
  lemma OwnerOrAdminMonotone(u: User, v: User, b: Booking, dir: Directory)
    requires MoreFlags(u, v)
    requires OwnerOrAdmin(Authenticated(u), b, dir) == Success(true)
    ensures OwnerOrAdmin(Authenticated(v), b, dir) == Success(true)
  {
    if !v.isSuperuser && !ClientOwner(v, b, dir) {
      assert !u.isSuperuser && !ClientOwner(u, b, dir);
      assert DoctorOwner(u, b, dir);
    }
  }

  /** Outcome of the permission checks of a request. */
  datatype Decision = Granted | NotAuthenticated | Forbidden(refusedBy: PermissionClass)

  /** The framework's refusal: 401 for the anonymous caller, 403 with the class otherwise. */
  function Refuse(c: Caller, p: PermissionClass): (d: Decision)
    ensures d != Granted
    ensures d == NotAuthenticated <==> c.Anonymous?
  {
    if c.Anonymous? then NotAuthenticated else Forbidden(p)
  }

  /** `check_permissions`: the first class whose `has_permission` refuses decides. */
  function CheckPermissions(c: Caller, ps: seq<PermissionClass>): (d: Decision)
    ensures d == Granted <==> forall i :: 0 <= i < |ps| ==> HasPermission(ps[i], c)
    ensures d != Granted ==>
              exists k :: 0 <= k < |ps| && !HasPermission(ps[k], c) && d == Refuse(c, ps[k]) &&
                (forall i :: 0 <= i < k ==> HasPermission(ps[i], c))
  {
    if ps == [] then Granted
    else if !HasPermission(ps[0], c) then Refuse(c, ps[0])
    else
      assert forall i :: 0 < i < |ps| ==> ps[i] == ps[1..][i - 1];
      CheckPermissions(c, ps[1..])
  }

  /** `has_object_permission` of each class; only `IsOwnerOrAdmin` overrides the granting default. */
  function HasObjectPermission(p: PermissionClass, c: Caller, b: Booking, dir: Directory): Result<bool, Crash>
  {
    if p == IsOwnerOrAdmin then OwnerOrAdmin(c, b, dir) else Success(true)
  }

  /** `check_object_permissions`: in order, the first refusal decides and a raise aborts. */
  function CheckObjectPermissions(c: Caller, ps: seq<PermissionClass>, b: Booking, dir: Directory): (r: Result<Decision, Crash>)
    ensures r == Success(Granted) <==> forall i :: 0 <= i < |ps| ==> HasObjectPermission(ps[i], c, b, dir) == Success(true)
    ensures r.Success? && r.value != Granted ==>
              exists k :: 0 <= k < |ps| && HasObjectPermission(ps[k], c, b, dir) == Success(false) && r.value == Refuse(c, ps[k]) &&
                (forall i :: 0 <= i < k ==> HasObjectPermission(ps[i], c, b, dir) == Success(true))
    ensures r.Failure? ==>
              exists k :: 0 <= k < |ps| && HasObjectPermission(ps[k], c, b, dir) == Failure(r.error) &&
                (forall i :: 0 <= i < k ==> HasObjectPermission(ps[i], c, b, dir) == Success(true))
  {
    if ps == [] then Success(Granted)
    else match HasObjectPermission(ps[0], c, b, dir)
      case Failure(e) => Failure(e)
      case Success(ok) =>
        if !ok then Success(Refuse(c, ps[0]))
        else
          CheckObjectPermissions(c, ps[1..], b, dir)
  }
}
