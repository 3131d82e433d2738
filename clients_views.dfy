/**
  The registered-service viewset: which permission classes guard each action,
  which bookings the list shows to whom and in what order, and how a request
  is decided from the caller, the action and the booking table.
 */
module BookingViews {
  import opened Wrappers
  import opened Users
  import opened Bookings
  import opened Permissions
  import S = BookingSerializers

  /**
    `get_permissions`: the classes guarding each action. Every action's first
    class refuses the anonymous caller; ownership is asked for exactly on the
    single-object actions other than destroy, which only an admin may run.
   */
  function BookingPermissions(a: Action): (ps: seq<PermissionClass>)
    ensures |ps| > 0 && !HasPermission(ps[0], Anonymous)
    ensures a == List || a == Create ==>
              forall c :: CheckPermissions(c, ps) == if c.Anonymous? then NotAuthenticated else Granted
    ensures IsOwnerOrAdmin in ps <==> a != List && a != Destroy
    ensures IsAdmin in ps <==> a == Destroy
  {
    if a == List then [IsAuthenticated]
    else if a == Retrieve then [IsAuthenticated, IsOwnerOrAdmin]
    else if a == Destroy then [IsAdmin]
    else [IsAuthenticated, IsOwnerOrAdmin]
  }

  /** The filter `get_queryset` picks for the list action. */
  datatype Scope = Everything | ByClient(c: ClientId) | ByDoctor(e: EmployeeId) | ByClientOrDoctor(c': ClientId, e': EmployeeId) | NoRows

  predicate InScope(s: Scope, b: Booking)
  {
    match s
    case Everything => true
    case ByClient(c) => b.client == c
    case ByDoctor(e) => b.doctor == Some(e)
    case ByClientOrDoctor(c, e) => b.client == c || b.doctor == Some(e)
    case NoRows => false
  }

  /**
    The branch `get_queryset` takes for the list action. Reading
    `user.client.pk` or `user.employee.pk` of a user without that profile
    raises, and so does reading `is_client` of the anonymous user.
   */
  function ListScope(c: Caller): (r: Result<Scope, Crash>)
    ensures r.Failure? <==>
              c.Anonymous? ||
              (!c.user.isSuperuser && ((c.user.isClient && c.user.client.None?) || (c.user.isEmployee && c.user.employee.None?)))
    ensures r == Success(Everything) <==> c.Authenticated? && c.user.isSuperuser
    ensures r.Success? && !c.user.isSuperuser ==>
              forall b :: InScope(r.value, b) <==>
                (c.user.isClient && c.user.client == Some(b.client)) ||
                (c.user.isEmployee && b.doctor.Some? && c.user.employee == b.doctor)
  {
    match c
    case Anonymous => Failure(AttributeError)
    case Authenticated(u) =>
      if u.isSuperuser then Success(Everything)
      else if u.isClient && !u.isEmployee then
        (if u.client.None? then Failure(RelatedObjectDoesNotExist) else Success(ByClient(u.client.value)))
      else if u.isEmployee && !u.isClient then
        (if u.employee.None? then Failure(RelatedObjectDoesNotExist) else Success(ByDoctor(u.employee.value)))
      else if u.isClient && u.isEmployee then
        (if u.client.None? || u.employee.None? then Failure(RelatedObjectDoesNotExist)
         else Success(ByClientOrDoctor(u.client.value, u.employee.value)))
      else Success(NoRows)
  }

  /** The rows of `s` in scope, each as often as it occurs in `s`. */
  function Filter(s: seq<Booking>, scope: Scope): (r: seq<Booking>)
    ensures forall b :: multiset(r)[b] == if InScope(scope, b) then multiset(s)[b] else 0
  {
    if s == [] then []
    else
      assert s == [s[0]] + s[1..];
      (if InScope(scope, s[0]) then [s[0]] else []) + Filter(s[1..], scope)
  }

  /** `order_by("-date_services")`: later dates first. */
  predicate SortedByDateDesc(s: seq<Booking>)
  {
    forall i, j :: 0 <= i < j < |s| ==> s[i].dateServices >= s[j].dateServices
  }

  /** Putting a row with no later date than any of `rest` in front keeps the order. */
  lemma ConsSorted(h: Booking, rest: seq<Booking>)
    requires SortedByDateDesc(rest)
    requires forall x :: x in rest ==> x.dateServices <= h.dateServices
    ensures SortedByDateDesc([h] + rest)
  {
    var s := [h] + rest;
    forall i, j | 0 <= i < j < |s| ensures s[i].dateServices >= s[j].dateServices {
      if i > 0 {
        assert s[i] == rest[i - 1] && s[j] == rest[j - 1];
      } else {
        assert s[j] == rest[j - 1];
        assert rest[j - 1] in rest;
      }
    }
  }

  /** In a date-descending sequence no row is later than the first. */
  lemma HeadIsLatest(s: seq<Booking>)
    requires SortedByDateDesc(s) && s != []
    ensures forall x :: x in s ==> x.dateServices <= s[0].dateServices
  {
    forall x | x in s ensures x.dateServices <= s[0].dateServices {
      var k :| 0 <= k < |s| && s[k] == x;
    }
  }

  function Insert(b: Booking, s: seq<Booking>): (r: seq<Booking>)
    requires SortedByDateDesc(s)
    ensures SortedByDateDesc(r)
    ensures multiset(r) == multiset(s) + multiset{b}
    ensures forall x :: x in r ==> x == b || x in s
  {
    if s == [] then [b]
    else if b.dateServices >= s[0].dateServices then
      HeadIsLatest(s);
      ConsSorted(b, s);
      [b] + s
    else
      assert s == [s[0]] + s[1..];
      var rest := Insert(b, s[1..]);
      HeadIsLatest(s);
      ConsSorted(s[0], rest);
      [s[0]] + rest
  }

  /** The rows of `s` in descending date order; the order of equal dates is not promised. */
  function SortByDateDesc(s: seq<Booking>): (r: seq<Booking>)
    ensures SortedByDateDesc(r)
    ensures multiset(r) == multiset(s)
  {
    if s == [] then []
    else
      assert s == [s[0]] + s[1..];
      Insert(s[0], SortByDateDesc(s[1..]))
  }

  /**
    `get_queryset` for the list action: the scope's rows, latest date first,
    each in-scope table row as often as the table holds it.
   */
  function ListQuery(c: Caller, table: seq<Booking>): (r: Result<seq<Booking>, Crash>)
    ensures r.Success? <==> ListScope(c).Success?
    ensures r.Success? ==> SortedByDateDesc(r.value)
    ensures r.Success? ==>
              forall b :: multiset(r.value)[b] == if InScope(ListScope(c).value, b) then multiset(table)[b] else 0
  {
    match ListScope(c)
    case Failure(e) => Failure(e)
    case Success(scope) => Success(SortByDateDesc(Filter(table, scope)))
  }

  /** A superuser's list is the whole table, whatever role flags the superuser also has. */
  lemma SuperuserListsEverything(u: User, table: seq<Booking>)
    requires u.isSuperuser
    ensures ListQuery(Authenticated(u), table).Success?
    ensures multiset(ListQuery(Authenticated(u), table).value) == multiset(table)
  {
    var f := Filter(table, Everything);
    assert multiset(f) == multiset(table) by {
      forall b ensures multiset(f)[b] == multiset(table)[b] {
      }
    }
  }

  /** A non-superuser with neither role flag gets an empty list. */
  lemma RolelessListsNothing(u: User, table: seq<Booking>)
    requires !u.isSuperuser && !u.isClient && !u.isEmployee
    ensures ListQuery(Authenticated(u), table) == Success([])
  {
    var f := Filter(table, NoRows);
    assert multiset(f) == multiset{};
  }

  /** The list raises only for a non-superuser missing the profile of a role flag it holds. */
  lemma ListCrashesOnlyWithoutProfile(u: User, table: seq<Booking>)
    ensures ListQuery(Authenticated(u), table).Failure? <==>
              !u.isSuperuser && ((u.isClient && u.client.None?) || (u.isEmployee && u.employee.None?))
  {
  }

  /**
    The scope of a user's list holds a row exactly when `IsOwnerOrAdmin`
    grants that row, for a user whose profiles are linked consistently and
    whose list scope does not raise.
   */
  lemma ScopeAgreesWithOwnerOrAdmin(u: User, dir: Directory, b: Booking)
    requires Consistent(dir, u)
    requires ListScope(Authenticated(u)).Success?
    ensures InScope(ListScope(Authenticated(u)).value, b) <==> OwnerOrAdmin(Authenticated(u), b, dir) == Success(true)
  {
    assert ClientUserOf(dir, b.client) == Some(u.id) <==> u.client == Some(b.client);
    if b.doctor.Some? {
      assert EmployeeUserOf(dir, b.doctor.value) == Some(u.id) <==> u.employee == Some(b.doctor.value);
    }
  }

  /**
    The list and the object-level rule agree: a table row is listed exactly
    when `IsOwnerOrAdmin` grants that row, for every user whose profiles are
    linked consistently and whose list does not raise.
   */
  lemma ListAgreesWithOwnerOrAdmin(u: User, dir: Directory, table: seq<Booking>, b: Booking)
    requires Consistent(dir, u)
    requires ListQuery(Authenticated(u), table).Success?
    requires b in table
    ensures b in ListQuery(Authenticated(u), table).value <==> OwnerOrAdmin(Authenticated(u), b, dir) == Success(true)
  {
    var scope := ListScope(Authenticated(u)).value;
    var rows := ListQuery(Authenticated(u), table).value;
    assert multiset(rows)[b] == if InScope(scope, b) then multiset(table)[b] else 0;
    assert b in multiset(table);
    ScopeAgreesWithOwnerOrAdmin(u, dir, b);
  }

  /** No two rows of the table share a pk. */
  predicate UniquePks(table: seq<Booking>)
  {
    forall i, j :: 0 <= i < j < |table| ==> table[i].pk != table[j].pk
  }

  /** A table with unique pks holds each row at most once. */
  lemma {:induction false} UniquePksCountOnce(table: seq<Booking>, b: Booking)
    requires UniquePks(table)
    ensures multiset(table)[b] <= 1
  {
    if table != [] {
      assert table == [table[0]] + table[1..];
      var tail := table[1..];
      assert UniquePks(tail) by {
        forall i, j | 0 <= i < j < |tail| ensures tail[i].pk != tail[j].pk {
          assert tail[i] == table[i + 1] && tail[j] == table[j + 1];
        }
      }
      UniquePksCountOnce(tail, b);
      if b == table[0] {
        assert b !in tail by {
          forall k | 0 <= k < |tail| ensures tail[k] != b {
            assert tail[k] == table[k + 1];
          }
        }
      }
    }
  }

  /**
    Over a table with unique pks every list holds each row at most once; in
    particular a row matching a dual-role user on both axes is listed once.
   */
  lemma ListHasNoDuplicates(c: Caller, table: seq<Booking>, b: Booking)
    requires UniquePks(table)
    requires ListQuery(c, table).Success?
    ensures multiset(ListQuery(c, table).value)[b] <= 1
    ensures b in table && InScope(ListScope(c).value, b) ==> multiset(ListQuery(c, table).value)[b] == 1
  {
    UniquePksCountOnce(table, b);
  }

  /**
    A user who is client 1 and doctor 7 sees the booking of client 1 with
    doctor 9 and the booking of client 2 with doctor 7, and not the booking
    of client 3 with doctor 3.
   */
  lemma DualRoleScenario(u: User, b1: Booking, b2: Booking, b3: Booking)
    requires !u.isSuperuser && u.isClient && u.isEmployee && u.client == Some(1) && u.employee == Some(7)
    requires b1.client == 1 && b1.doctor == Some(9)
    requires b2.client == 2 && b2.doctor == Some(7)
    requires b3.client == 3 && b3.doctor == Some(3)
    ensures ListQuery(Authenticated(u), [b1, b2, b3]).Success?
    ensures multiset(ListQuery(Authenticated(u), [b1, b2, b3]).value) == multiset{b1, b2}
  {
    var f := Filter([b1, b2, b3], ByClientOrDoctor(1, 7));
    assert multiset(f) == multiset{b1, b2} by {
      forall x ensures multiset(f)[x] == multiset{b1, b2}[x] {
      }
    }
  }

  /** `get_object` over `objects.all()`: the first row with the pk, or none. */
  function Lookup(table: seq<Booking>, pk: nat): (r: Option<Booking>)
    ensures r.Some? ==> r.value in table && r.value.pk == pk
    ensures r.None? <==> forall b :: b in table ==> b.pk != pk
  {
    if table == [] then None
    else if table[0].pk == pk then Some(table[0])
    else Lookup(table[1..], pk)
  }

  /** What the viewset answers. */
  datatype Outcome =
    | Refused(decision: Decision)      // 401 or 403
    | NotFound                         // 404
    | ServerError(crash: Crash)        // 500
    | Listed(rows: seq<Booking>)       // the rows the response renders
    | ObjectGranted(target: Booking)   // the handler goes on with this row
    | CreateGranted                    // the handler goes on to the serializer

  predicate SingleObject(a: Action)
  {
    a in {Retrieve, Update, PartialUpdate, Destroy}
  }

  /**
    A request to the viewset: the action's permission classes in order; then
    the list query, or for a single-object action the lookup in the whole
    table followed by the object permissions; create goes straight to the
    serializer.
   */
  function Handle(c: Caller, a: Action, table: seq<Booking>, dir: Directory, pk: nat): (r: Outcome)
    ensures CheckPermissions(c, BookingPermissions(a)) != Granted ==> r == Refused(CheckPermissions(c, BookingPermissions(a)))
    ensures r.Refused? ==> r.decision != Granted
    ensures r.Listed? ==> a == List && c.Authenticated? && ListQuery(c, table) == Success(r.rows)
    ensures a == List && c.Authenticated? ==>
              r == match ListQuery(c, table)
                   case Success(rows) => Listed(rows)
                   case Failure(e) => ServerError(e)
    ensures r == CreateGranted <==> a == Create && c.Authenticated?
    ensures r.ObjectGranted? ==> SingleObject(a) && Lookup(table, pk) == Some(r.target)
    ensures r.ObjectGranted? && a == Destroy ==> Admin(c)
    ensures r.ObjectGranted? && a != Destroy ==> OwnerOrAdmin(c, r.target, dir) == Success(true)
  {
    var d := CheckPermissions(c, BookingPermissions(a));
    if d != Granted then Refused(d)
    else if a == List then
      (match ListQuery(c, table)
       case Failure(e) => ServerError(e)
       case Success(rows) => Listed(rows))
    else if a == Create then CreateGranted
    else
      match Lookup(table, pk)
      case None => NotFound
      case Some(b) =>
        match CheckObjectPermissions(c, BookingPermissions(a), b, dir)
        case Failure(e) => ServerError(e)
        case Success(od) => if od == Granted then ObjectGranted(b) else Refused(od)
  }

  /** The anonymous caller is refused as not authenticated on every action. */
  lemma AnonymousNotAuthenticated(a: Action, table: seq<Booking>, dir: Directory, pk: nat)
    ensures Handle(Anonymous, a, table, dir, pk) == Refused(NotAuthenticated)
  {
    assert !HasPermission(BookingPermissions(a)[0], Anonymous);
  }

  /** Destroy is refused by `IsAdmin` to every non-superuser, the booking's own client and doctor included. */
  lemma DestroyOnlyBySuperuser(u: User, table: seq<Booking>, dir: Directory, pk: nat)
    ensures !u.isSuperuser ==> Handle(Authenticated(u), Destroy, table, dir, pk) == Refused(Forbidden(IsAdmin))
    ensures u.isSuperuser ==>
              Handle(Authenticated(u), Destroy, table, dir, pk) ==
                (if Lookup(table, pk).Some? then ObjectGranted(Lookup(table, pk).value) else NotFound)
  {
  }

  /** Any signed-in user passes the create action's checks: no role and no ownership is asked for. */
  lemma CreateOpenToSignedIn(u: User, table: seq<Booking>, dir: Directory, pk: nat)
    ensures Handle(Authenticated(u), Create, table, dir, pk) == CreateGranted
  {
  }

  /**
    On retrieve and update, a signed-in non-owner of an existing row is
    refused by `IsOwnerOrAdmin` (403), not told the row is missing; an owner
    or a superuser gets the row.
   */
  lemma ObjectActionsFollowOwnerOrAdmin(u: User, a: Action, table: seq<Booking>, dir: Directory, pk: nat)
    requires a in {Retrieve, Update, PartialUpdate}
    requires Lookup(table, pk).Some?
    ensures var b := Lookup(table, pk).value;
            OwnerOrAdmin(Authenticated(u), b, dir) == Success(false) ==>
              Handle(Authenticated(u), a, table, dir, pk) == Refused(Forbidden(IsOwnerOrAdmin))
    ensures var b := Lookup(table, pk).value;
            OwnerOrAdmin(Authenticated(u), b, dir) == Success(true) ==>
              Handle(Authenticated(u), a, table, dir, pk) == ObjectGranted(b)
  {
    var b := Lookup(table, pk).value;
    var ps := BookingPermissions(a);
    assert ps == [IsAuthenticated, IsOwnerOrAdmin];
    assert ps[1..] == [IsOwnerOrAdmin] && ps[1..][1..] == [];
    var c := Authenticated(u);
    assert CheckPermissions(c, ps) == Granted;
    assert CheckObjectPermissions(c, ps, b, dir) == CheckObjectPermissions(c, [IsOwnerOrAdmin], b, dir);
  }

  /**
    On retrieve and update, an `IsOwnerOrAdmin` check that raises (a doctor
    axis read on a booking without a doctor) is answered with a server error.
   */
  lemma ObjectCheckRaiseIsServerError(u: User, a: Action, table: seq<Booking>, dir: Directory, pk: nat)
    requires a in {Retrieve, Update, PartialUpdate}
    requires Lookup(table, pk).Some?
    requires OwnerOrAdmin(Authenticated(u), Lookup(table, pk).value, dir).Failure?
    ensures Handle(Authenticated(u), a, table, dir, pk) ==
            ServerError(OwnerOrAdmin(Authenticated(u), Lookup(table, pk).value, dir).error)
  {
    var ps := BookingPermissions(a);
    assert ps == [IsAuthenticated, IsOwnerOrAdmin];
    assert ps[1..] == [IsOwnerOrAdmin] && ps[1..][1..] == [];
  }

  /** A signed-in caller asking for a pk no row has gets 404 on every single-object action but destroy. */
  lemma MissingRowNotFound(u: User, a: Action, table: seq<Booking>, dir: Directory, pk: nat)
    requires a in {Retrieve, Update, PartialUpdate}
    requires forall b :: b in table ==> b.pk != pk
    ensures Handle(Authenticated(u), a, table, dir, pk) == NotFound
  {
  }

  /**
    The update the endpoint performs: the viewset's serializer class is the
    plain booking serializer, whose `update` assigns every supplied field,
    `status_paid` included, with no date rule.
   */
  function EndpointUpdate(b: Booking, payload: S.Patch): Booking
  {
    S.ApplyPatch(b, payload)
  }

  /** Where the payload leaves `status_paid` alone and has no past date, the endpoint and the update serializer agree. */
  lemma EndpointAgreesOnHarmlessPayload(b: Booking, payload: S.Patch, now: int)
    requires payload.statusPaid.None?
    requires payload.dateServices.Some? ==> now < payload.dateServices.value
    ensures S.ValidatedUpdate(b, payload, now) == Success(EndpointUpdate(b, payload))
  {
  }

  /** The endpoint lets a booking's owner flip `status_paid`; the update serializer would keep it. */
  lemma EndpointChangesStatusPaid(b: Booking, now: int)
    requires b.statusPaid == None
    ensures var payload := S.EmptyPatch.(statusPaid := Some(Some(true)));
            && EndpointUpdate(b, payload).statusPaid == Some(true)
            && S.ValidatedUpdate(b, payload, now) == Success(b)
  {
  }

  /** The endpoint accepts a date in the past; the update serializer refuses it. */
  lemma EndpointAcceptsPastDate(b: Booking, now: int)
    ensures var payload := S.EmptyPatch.(dateServices := Some(now - 1));
            && EndpointUpdate(b, payload).dateServices == now - 1
            && S.ValidatedUpdate(b, payload, now) == Failure(S.DateNotInFuture)
  {
  }
}
