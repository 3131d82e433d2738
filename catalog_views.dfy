/**
  Who may act on the service catalog: the landing page, the category and
  service viewsets, and the read-only doctors viewset.
 */
module CatalogViews {
  import opened Permissions

  predicate ReadAction(a: Action)
  {
    a == List || a == Retrieve
  }

  /** The decision every catalog write gets: 401 anonymous, granted to admins and managers, else 403. */
  function WriteDecision(c: Caller): Decision
  {
    if c.Anonymous? then NotAuthenticated
    else if Admin(c) || Manager(c) then Granted
    else Forbidden(IsAdminOrManager)
  }

  /**
    `CategoriesViewSet.get_permissions`: list and retrieve are open to
    everyone, the anonymous caller included; every other action needs a
    signed-in admin or manager.
   */
  function CategoryPermissions(a: Action): (ps: seq<PermissionClass>)
    ensures ReadAction(a) ==> forall c :: CheckPermissions(c, ps) == Granted
    ensures !ReadAction(a) ==> forall c :: CheckPermissions(c, ps) == WriteDecision(c)
  {
    if ReadAction(a) then [AllowAny]
    else
      assert [IsAuthenticated, IsAdminOrManager][1..] == [IsAdminOrManager];
      [IsAuthenticated, IsAdminOrManager]
  }

  /**
    `ServicesInfoViewSet.get_permissions`: the same decisions, although only
    `IsAdminOrManager` guards the writes: the anonymous caller fails it and
    gets 401 all the same.
   */
  function ServicePermissions(a: Action): (ps: seq<PermissionClass>)
    ensures ReadAction(a) ==> forall c :: CheckPermissions(c, ps) == Granted
    ensures !ReadAction(a) ==> forall c :: CheckPermissions(c, ps) == WriteDecision(c)
  {
    if ReadAction(a) then [AllowAny] else [IsAdminOrManager]
  }

  /** `CatalogListAPIView.permission_classes`. */
  const LandingPermissions: seq<PermissionClass> := [AllowAny]

  /** `DoctorsInfoViewSet.permission_classes`; the viewset offers only list and retrieve. */
  const DoctorsPermissions: seq<PermissionClass> := [AllowAny]

  /** The landing page and the doctors list are granted to everyone. */
  lemma LandingAndDoctorsOpen(c: Caller)
    ensures CheckPermissions(c, LandingPermissions) == Granted
    ensures CheckPermissions(c, DoctorsPermissions) == Granted
  {
  }
}
