/**
  The registration serializer: `validate` (password confirmation, then the
  explicit-roles check) and `create` (create the user, then attach a client
  or employee profile only where the role flag and the profile data allow).
 */
module Registration {
  import opened Wrappers
  import opened Users

  /** A request's validated data, keyed by field name. */
  type Data = map<string, PyValue>

  datatype RegistrationError =
    | PasswordMismatch
    | NoRoles
    | UserRejected(reason: UserError)
    | ClientProfileInvalid
    | EmployeeProfileInvalid

  /** `data.get(key)`: the value, or None when the key is absent. */
  function Get(data: Data, key: string): PyValue
  {
    if key in data then data[key] else PyNone
  }

  /** Both role flags supplied and both the object `False` (`is False`). */
  predicate BothRolesExplicitlyFalse(data: Data)
  {
    Get(data, "is_client") == PyBool(false) && Get(data, "is_employee") == PyBool(false)
  }

  /**
    `validate`: pop `password2`, refuse when it differs from `password`, then
    refuse when both role flags are explicitly False; otherwise return the
    data without `password2`. A role flag that is missing is not refused.
   */
  function Validate(data: Data): (r: Result<Data, RegistrationError>)
    ensures Get(data, "password") != Get(data, "password2") ==> r == Failure(PasswordMismatch)
    ensures r == Failure(NoRoles) <==> Get(data, "password") == Get(data, "password2") && BothRolesExplicitlyFalse(data)
    ensures r.Success? <==> Get(data, "password") == Get(data, "password2") && !BothRolesExplicitlyFalse(data)
    ensures r.Success? ==> r.value.Keys == data.Keys - {"password2"} && forall k :: k in r.value ==> r.value[k] == data[k]
  {
    var password2 := Get(data, "password2");
    var rest := data - {"password2"};
    if Get(rest, "password") != password2 then Failure(PasswordMismatch)
    else if Get(rest, "is_client") == PyBool(false) && Get(rest, "is_employee") == PyBool(false) then Failure(NoRoles)
    else Success(rest)
  }

  /** The email `create_user` receives; a missing or non-string one reads as empty. */
  function EmailOf(data: Data): string
  {
    match Get(data, "email")
    case PyStr(s) => s
    case _ => ""
  }

  /** The password `create_user` receives. */
  function PasswordOf(data: Data): Option<string>
  {
    match Get(data, "password")
    case PyStr(s) => Some(s)
    case _ => None
  }

  /** The flag keyword arguments `create_user` receives: the role flags the request supplied. */
  function RoleExtra(data: Data): (extra: map<Flag, PyValue>)
    ensures IsClient in extra <==> "is_client" in data
    ensures IsEmployee in extra <==> "is_employee" in data
    ensures extra.Keys <= {IsClient, IsEmployee}
    ensures IsClient in extra ==> extra[IsClient] == data["is_client"]
    ensures IsEmployee in extra ==> extra[IsEmployee] == data["is_employee"]
  {
    var c := if "is_client" in data then map[IsClient := data["is_client"]] else map[];
    if "is_employee" in data then c[IsEmployee := data["is_employee"]] else c
  }

  /**
    A payload that omits both role flags passes `validate`, yet the user it
    builds has no role, so the `clean` run on save refuses it: the role rule
    is enforced at save time, not by `validate`.
   */
  lemma RolelessPayloadCaughtOnlyBySave(data: Data, id: UserId)
    requires Get(data, "password") == Get(data, "password2")
    requires "is_client" !in data && "is_employee" !in data
    ensures Validate(data).Success?
    ensures var v := Validate(data).value;
            Clean(NewUser(id, EmailOf(v), PasswordOf(v), RoleExtra(v))) == Failure(RoleRequired)
  {
    var v := Validate(data).value;
    assert "is_client" !in v && "is_employee" !in v;
    assert RoleExtra(v) == map[];
  }

  /** The user `create_user` builds from the validated data as the `n + 1`-th row. */
  function RegisteredUser(n: nat, data: Data): User
  {
    NewUser(n + 1, EmailOf(data), PasswordOf(data), RoleExtra(data))
  }

  /** `create_user` saves the built user: a non-empty, unused email and a role. */
  predicate UserAccepted(manager: UserManager, data: Data)
    reads manager
  {
    && EmailOf(data) != ""
    && HasRole(RegisteredUser(|manager.users|, data))
    && !manager.EmailTaken(EmailOf(data))
  }

  /** A client profile is asked for: the user is a client and client data was given. */
  predicate ClientProfileWanted(u: User, data: Data)
  {
    u.isClient && Truthy(Get(data, "client"))
  }

  /** An employee profile is asked for: the user is an employee and employee data was given. */
  predicate EmployeeProfileWanted(u: User, data: Data)
  {
    u.isEmployee && Truthy(Get(data, "employee"))
  }

  /** The outcome of `create`: the saved user and which profiles were attached. */
  datatype Registered = Registered(user: User, clientProfile: bool, employeeProfile: bool)

  /**
    `create`: pop the nested client and employee data, create the user, then
    attach a client profile only when `is_client` holds and client data was
    given, and an employee profile only when `is_employee` holds and employee
    data was given. Whether the nested profile serializers accept their data
    is an input. A refused profile raises after the user row was saved.
   */
  method Create(manager: UserManager, validatedData: Data, clientDataValid: bool, employeeDataValid: bool)
    returns (r: Result<Registered, RegistrationError>)
    requires manager.Valid()
    modifies manager
    ensures manager.Valid()
    ensures var u := RegisteredUser(|old(manager.users)|, validatedData);
            r.Success? <==>
              && old(UserAccepted(manager, validatedData))
              && (ClientProfileWanted(u, validatedData) ==> clientDataValid)
              && (EmployeeProfileWanted(u, validatedData) ==> employeeDataValid)
    ensures r.Success? ==>
              && r.value.user == RegisteredUser(|old(manager.users)|, validatedData)
              && HasRole(r.value.user)
              && manager.users == old(manager.users) + [r.value.user]
              && (r.value.clientProfile <==> ClientProfileWanted(r.value.user, validatedData))
              && (r.value.employeeProfile <==> EmployeeProfileWanted(r.value.user, validatedData))
    ensures r.Failure? && r.error.UserRejected? <==> !old(UserAccepted(manager, validatedData))
    ensures r.Failure? && r.error.UserRejected? ==> manager.users == old(manager.users)
    ensures var u := RegisteredUser(|old(manager.users)|, validatedData);
            r == Failure(ClientProfileInvalid) <==>
              old(UserAccepted(manager, validatedData)) && ClientProfileWanted(u, validatedData) && !clientDataValid
    ensures r.Failure? && !r.error.UserRejected? ==>
              manager.users == old(manager.users) + [RegisteredUser(|old(manager.users)|, validatedData)]
    ensures r.Failure? ==> !r.error.PasswordMismatch? && !r.error.NoRoles?
  {
    var clientData := Get(validatedData, "client");
    var employeeData := Get(validatedData, "employee");
    var data := validatedData - {"client", "employee"};
    assert EmailOf(data) == EmailOf(validatedData) && PasswordOf(data) == PasswordOf(validatedData);
    assert RoleExtra(data) == RoleExtra(validatedData);
    var created := manager.CreateUser(EmailOf(data), PasswordOf(data), RoleExtra(data));
    if created.Failure? {
      return Failure(UserRejected(created.error));
    }
    var user := created.value;
    var clientProfile := false;
    if user.isClient && Truthy(clientData) {
      if !clientDataValid {
        return Failure(ClientProfileInvalid);
      }
      clientProfile := true;
    }
    var employeeProfile := false;
    if user.isEmployee && Truthy(employeeData) {
      if !employeeDataValid {
        return Failure(EmployeeProfileInvalid);
      }
      employeeProfile := true;
    }
    r := Success(Registered(user, clientProfile, employeeProfile));
  }
}
