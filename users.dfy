/**
  The `Users` record of the clinic backend, its flag defaults, the role rule
  enforced by `clean`, and the user manager that creates ordinary users and
  superusers and saves them into the users table.
 */
module Users {
  import opened Wrappers

  type UserId = nat
  type ClientId = nat
  type EmployeeId = nat

  /** A Python value as it can appear in keyword arguments or a request dict. */
  datatype PyValue =
    | PyNone
    | PyBool(b: bool)
    | PyInt(i: int)
    | PyStr(s: string)
    | PyDict(entries: map<string, string>)

  /** Python truthiness of a value. */
  predicate Truthy(v: PyValue)
  {
    match v
    case PyNone => false
    case PyBool(b) => b
    case PyInt(i) => i != 0
    case PyStr(s) => s != ""
    case PyDict(m) => |m| != 0
  }

  /** The boolean columns of a user that `create_user` accepts as extra fields. */
  datatype Flag = IsClient | IsEmployee | IsBanned | IsActive | IsStaff | IsSuperuser

  /** Column default of each flag: only `is_active` defaults to true. */
  predicate FlagDefault(f: Flag)
  {
    f == IsActive
  }

  /**
    A user row, together with its group memberships and its reverse
    one-to-one accessors `user.client` / `user.employee` (the pk of the
    profile whose `user` column points back at this user, when one exists).
   */
  datatype User = User(
    id: UserId,
    email: string,
    password: Option<string>,
    isClient: bool,
    isEmployee: bool,
    isBanned: bool,
    isActive: bool,
    isStaff: bool,
    isSuperuser: bool,
    groups: set<string>,
    client: Option<ClientId>,
    employee: Option<EmployeeId>)

  /** The value a flag gets when a user is built from keyword arguments. */
  predicate FlagOf(extra: map<Flag, PyValue>, f: Flag)
  {
    if f in extra then Truthy(extra[f]) else FlagDefault(f)
  }

  /** The column of `u` that flag `f` names. */
  function FlagField(u: User, f: Flag): bool
  {
    match f
    case IsClient => u.isClient
    case IsEmployee => u.isEmployee
    case IsBanned => u.isBanned
    case IsActive => u.isActive
    case IsStaff => u.isStaff
    case IsSuperuser => u.isSuperuser
  }

  /**
    `self.model(email=email, **extra_fields)` followed by `set_password(password)`:
    a supplied flag takes its value's truthiness, an absent one its column
    default (only `is_active` is on); the row has no groups and no profiles yet.
   */
  function NewUser(id: UserId, email: string, password: Option<string>, extra: map<Flag, PyValue>): (u: User)
    ensures u.id == id && u.email == email && u.password == password
    ensures u.groups == {} && u.client.None? && u.employee.None?
    ensures forall f :: f in extra ==> FlagField(u, f) == Truthy(extra[f])
    ensures forall f :: f !in extra ==> (FlagField(u, f) <==> f == IsActive)
  {
    User(id, email, password,
         FlagOf(extra, IsClient), FlagOf(extra, IsEmployee), FlagOf(extra, IsBanned),
         FlagOf(extra, IsActive), FlagOf(extra, IsStaff), FlagOf(extra, IsSuperuser),
         {}, None, None)
  }

  /** The role invariant: a superuser, a client, an employee, or several of these. */
  predicate HasRole(u: User)
  {
    u.isSuperuser || u.isClient || u.isEmployee
  }

  datatype UserError = EmptyEmail | RoleRequired | DuplicateEmail | NotSuperuser

  /** `Users.clean`: a non-superuser must be a client or an employee (or both). */
  function Clean(u: User): (r: Result<(), UserError>)
    ensures r.Success? <==> HasRole(u)
    ensures r.Failure? ==> r.error == RoleRequired
  {
    if !u.isSuperuser && (!u.isClient && !u.isEmployee) then Failure(RoleRequired) else Success(())
  }

  /** Flag defaults of a user built with no extra fields: only `is_active` is set. */
  lemma DefaultFlags(id: UserId, email: string, password: Option<string>)
    ensures var u := NewUser(id, email, password, map[]);
            u.isActive && !u.isClient && !u.isEmployee && !u.isBanned && !u.isStaff && !u.isSuperuser
    ensures Clean(NewUser(id, email, password, map[])).Failure?
  {
  }

  /** `create_superuser`'s `setdefault` calls: fill the three flags with True where absent. */
  function WithSuperuserDefaults(extra: map<Flag, PyValue>): (e: map<Flag, PyValue>)
    ensures e.Keys == extra.Keys + {IsActive, IsStaff, IsSuperuser}
    ensures forall f :: f in extra ==> e[f] == extra[f]
    ensures IsActive !in extra ==> e[IsActive] == PyBool(true)
    ensures IsStaff !in extra ==> e[IsStaff] == PyBool(true)
    ensures IsSuperuser !in extra ==> e[IsSuperuser] == PyBool(true)
  {
    var a := if IsActive in extra then extra else extra[IsActive := PyBool(true)];
    var s := if IsStaff in a then a else a[IsStaff := PyBool(true)];
    if IsSuperuser in s then s else s[IsSuperuser := PyBool(true)]
  }

  /**
    `extra_fields.get("is_superuser") is not True` after the defaults: only the
    very object `True` passes, so a truthy `1` or `"yes"` is refused as well.
   */
  predicate SuperuserFlagRefused(extra: map<Flag, PyValue>)
  {
    IsSuperuser in extra && extra[IsSuperuser] != PyBool(true)
  }

  lemma TruthyNonTrueIsRefused()
    ensures SuperuserFlagRefused(map[IsSuperuser := PyInt(1)])
    ensures FlagOf(map[IsSuperuser := PyInt(1)], IsSuperuser)
  {
  }

  /** The users table, written by `save`, and the manager that creates users. */
  class UserManager {
    var users: seq<User>

    /** Every stored row passed `clean`, has an email and a distinct one, and ids follow insertion. */
    ghost predicate Valid()
      reads this
    {
      && (forall i :: 0 <= i < |users| ==> HasRole(users[i]) && users[i].email != "" && users[i].id == i + 1)
      && (forall i, j :: 0 <= i < j < |users| ==> users[i].email != users[j].email)
    }

    predicate EmailTaken(email: string)
      reads this
    {
      exists i :: 0 <= i < |users| && users[i].email == email
    }

    constructor ()
      ensures Valid() && users == []
    {
      users := [];
    }

    /**
      `user.save()` of a new row: the `pre_save` receiver runs `clean` first,
      then the unique email column refuses a duplicate.
     */
    method Save(u: User) returns (r: Result<User, UserError>)
      requires Valid()
      requires u.email != "" && u.id == |users| + 1
      modifies this
      ensures Valid()
      ensures !HasRole(u) ==> r == Failure(RoleRequired)
      ensures HasRole(u) && old(EmailTaken(u.email)) ==> r == Failure(DuplicateEmail)
      ensures r.Success? <==> HasRole(u) && !old(EmailTaken(u.email))
      ensures r.Success? ==> r.value == u && users == old(users) + [u]
      ensures r.Failure? ==> users == old(users)
    {
      var cleaned := Clean(u);
      if cleaned.Failure? {
        return Failure(cleaned.error);
      }
      if EmailTaken(u.email) {
        return Failure(DuplicateEmail);
      }
      users := users + [u];
      r := Success(u);
    }

    /** `create_user`: refuse an empty email, build the user, set the password, save. */
    method CreateUser(email: string, password: Option<string>, extra: map<Flag, PyValue>)
      returns (r: Result<User, UserError>)
      requires Valid()
      modifies this
      ensures Valid()
      ensures email == "" ==> r == Failure(EmptyEmail)
      ensures email != "" && !HasRole(NewUser(|old(users)| + 1, email, password, extra)) ==> r == Failure(RoleRequired)
      ensures email != "" && HasRole(NewUser(|old(users)| + 1, email, password, extra)) && old(EmailTaken(email)) ==>
                r == Failure(DuplicateEmail)
      ensures r.Success? <==>
                email != "" && HasRole(NewUser(|old(users)| + 1, email, password, extra)) && !old(EmailTaken(email))
      ensures r.Success? ==>
                r.value == NewUser(|old(users)| + 1, email, password, extra) && users == old(users) + [r.value]
      ensures r.Success? ==> forall f :: f in extra ==> FlagField(r.value, f) == Truthy(extra[f])
      ensures r.Failure? ==> users == old(users)
    {
      if email == "" {
        return Failure(EmptyEmail);
      }
      var u := NewUser(|users| + 1, email, password, extra);
      r := Save(u);
    }

    /**
      `create_superuser`: default the three flags to True where absent, refuse
      unless `is_superuser` is exactly True, then `create_user`.
     */
    method CreateSuperuser(email: string, password: Option<string>, extra: map<Flag, PyValue>)
      returns (r: Result<User, UserError>)
      requires Valid()
      modifies this
      ensures Valid()
      ensures SuperuserFlagRefused(extra) ==> r == Failure(NotSuperuser)
      ensures !SuperuserFlagRefused(extra) && email == "" ==> r == Failure(EmptyEmail)
      ensures !SuperuserFlagRefused(extra) && email != "" && old(EmailTaken(email)) ==> r == Failure(DuplicateEmail)
      ensures r.Success? <==> !SuperuserFlagRefused(extra) && email != "" && !old(EmailTaken(email))
      ensures r.Success? ==>
                && r.value == NewUser(|old(users)| + 1, email, password, WithSuperuserDefaults(extra))
                && r.value.isSuperuser
                && users == old(users) + [r.value]
      ensures r.Failure? ==> users == old(users)
    {
      var fields := extra;
      if IsActive !in fields {
        fields := fields[IsActive := PyBool(true)];
      }
      if IsStaff !in fields {
        fields := fields[IsStaff := PyBool(true)];
      }
      if IsSuperuser !in fields {
        fields := fields[IsSuperuser := PyBool(true)];
      }
      assert fields == WithSuperuserDefaults(extra);
      if fields[IsSuperuser] != PyBool(true) {
        return Failure(NotSuperuser);
      }
      r := CreateUser(email, password, fields);
    }
  }
}
