/** Read and write access to sectors, departments and indicators: the
    `SuperuserWritePermission` check and the role-scoped `get_queryset` of
    the Sector, Department and Indicator viewsets. */
module IndicatorViews {
  import opened Wrappers
  import opened Domain
  import opened Seqs

  datatype Method = Get | Head | Options | Post | Put | Patch | Delete

  /** `permissions.SAFE_METHODS`. */
  predicate IsSafe(m: Method) {
    m == Get || m == Head || m == Options
  }

  /** The requesting user, or the anonymous user of an unauthenticated request. */
  datatype Requester = Anonymous | SignedIn(user: Principal)

  /** `SuperuserWritePermission.has_permission`, as both the indicator and the
      plan viewsets define it. */
  function SuperuserWritePermission(req: Requester, m: Method): (granted: bool)
    ensures granted ==> req.SignedIn?
    ensures IsSafe(m) ==> (granted <==> req.SignedIn?)
    ensures !IsSafe(m) ==> (granted <==> req.SignedIn? && req.user.isSuperuser)
  {
    if IsSafe(m) then req.SignedIn?
    else req.SignedIn? && req.user.isSuperuser
  }

  /** The sector an Advisor is scoped to: that of their department if they
      have one, else their own sector field. */
  function AdvisorSector(u: Principal): Option<int> {
    if u.department.Some? then Some(u.department.value.sector) else u.sector
  }

  /** The role filter of `SectorViewSet.get_queryset` on sector `id`. */
  predicate SectorInScope(u: Principal, id: int) {
    if u.isSuperuser then true
    else match u.role
      case StateMinister => u.sector.None? || id == u.sector.value
      case Advisor => AdvisorSector(u).None? || id == AdvisorSector(u).value
      case _ => true
  }

  /** `SectorViewSet.get_queryset` over the sector ids in name order. */
  function VisibleSectors(u: Principal, sectors: seq<int>): (r: seq<int>)
    ensures forall s :: s in r <==> s in sectors && SectorInScope(u, s)
  {
    if u.isSuperuser then sectors
    else Filter(sectors, (s: int) => SectorInScope(u, s))
  }

  /** The role filter of `DepartmentViewSet.get_queryset`. */
  predicate DepartmentInScope(u: Principal, d: Department) {
    if u.isSuperuser then true
    else match u.role
      case StateMinister => u.sector.None? || d.sector == u.sector.value
      case Advisor =>
        if u.department.Some? then d.id == u.department.value.id
        else u.sector.None? || d.sector == u.sector.value
      case _ => true
  }

  function DepartmentInSector(sector: int): Department -> bool {
    (d: Department) => d.sector == sector
  }

  function DepartmentListed(u: Principal): Department -> bool {
    (d: Department) => DepartmentInScope(u, d)
  }

  /** `DepartmentViewSet.get_queryset`: the `sector` query parameter first,
      then the role filter. */
  function VisibleDepartments(u: Principal, sector: Option<int>, depts: seq<Department>): (r: seq<Department>)
    ensures forall d :: d in r <==> d in depts && (sector.None? || d.sector == sector.value)
                                    && DepartmentInScope(u, d)
  {
    var qs := if sector.Some? then Filter(depts, DepartmentInSector(sector.value)) else depts;
    if u.isSuperuser then qs
    else Filter(qs, DepartmentListed(u))
  }

  /** The query filter and the role filter intersect, in queryset order. */
  lemma DepartmentQueryAndRoleIntersect(u: Principal, sector: Option<int>, depts: seq<Department>)
    ensures VisibleDepartments(u, sector, depts)
         == Filter(depts, (d: Department) => (sector.None? || d.sector == sector.value) && DepartmentInScope(u, d))
  {
    var q := (d: Department) => sector.None? || d.sector == sector.value;
    var qs := if sector.Some? then Filter(depts, DepartmentInSector(sector.value)) else depts;
    if sector.Some? {
      FilterSameCondition(depts, DepartmentInSector(sector.value), q);
    } else {
      FilterKeepsAll(depts, q);
    }
    if u.isSuperuser {
      FilterKeepsAll(qs, DepartmentListed(u));
    }
    FilterFilter(depts, q, DepartmentListed(u),
                 (d: Department) => (sector.None? || d.sector == sector.value) && DepartmentInScope(u, d));
  }

  /** The role filter of `IndicatorViewSet.get_queryset`. */
  predicate IndicatorInScope(u: Principal, i: Indicator) {
    if u.isSuperuser then true
    else match u.role
      case StateMinister => u.sector.None? || i.department.sector == u.sector.value
      case Advisor =>
        if u.department.Some? then i.department.id == u.department.value.id
        else u.sector.None? || i.department.sector == u.sector.value
      case _ => true
  }

  function IndicatorInDepartment(department: int): Indicator -> bool {
    (i: Indicator) => i.department.id == department
  }

  function IndicatorListed(u: Principal): Indicator -> bool {
    (i: Indicator) => IndicatorInScope(u, i)
  }

  /** `IndicatorViewSet.get_queryset`: the `department` query parameter
      first, then the role filter. */
  function VisibleIndicators(u: Principal, department: Option<int>, inds: seq<Indicator>): (r: seq<Indicator>)
    ensures forall i :: i in r <==> i in inds && (department.None? || i.department.id == department.value)
                                    && IndicatorInScope(u, i)
  {
    var qs := if department.Some? then Filter(inds, IndicatorInDepartment(department.value)) else inds;
    if u.isSuperuser then qs
    else Filter(qs, IndicatorListed(u))
  }

  /** The query filter and the role filter intersect, in queryset order. */
  lemma IndicatorQueryAndRoleIntersect(u: Principal, department: Option<int>, inds: seq<Indicator>)
    ensures VisibleIndicators(u, department, inds)
         == Filter(inds, (i: Indicator) => (department.None? || i.department.id == department.value) && IndicatorInScope(u, i))
  {
    var q := (i: Indicator) => department.None? || i.department.id == department.value;
    var qs := if department.Some? then Filter(inds, IndicatorInDepartment(department.value)) else inds;
    if department.Some? {
      FilterSameCondition(inds, IndicatorInDepartment(department.value), q);
    } else {
      FilterKeepsAll(inds, q);
    }
    if u.isSuperuser {
      FilterKeepsAll(qs, IndicatorListed(u));
    }
    FilterFilter(inds, q, IndicatorListed(u),
                 (i: Indicator) => (department.None? || i.department.id == department.value) && IndicatorInScope(u, i));
  }

  /** Roles other than State Minister and Advisor, and those two when they
      have no assignment, list everything the query parameters select. */
  lemma UnscopedSeeEverything(u: Principal, sectors: seq<int>, sector: Option<int>, depts: seq<Department>,
                              department: Option<int>, inds: seq<Indicator>)
    requires (u.role != StateMinister && u.role != Advisor)
          || (u.department.None? && u.sector.None?)
    ensures VisibleSectors(u, sectors) == sectors
    ensures VisibleDepartments(u, sector, depts)
         == if sector.Some? then Filter(depts, DepartmentInSector(sector.value)) else depts
    ensures VisibleIndicators(u, department, inds)
         == if department.Some? then Filter(inds, IndicatorInDepartment(department.value)) else inds
  {
    FilterKeepsAll(sectors, (s: int) => SectorInScope(u, s));
    FilterKeepsAll(if sector.Some? then Filter(depts, DepartmentInSector(sector.value)) else depts, DepartmentListed(u));
    FilterKeepsAll(if department.Some? then Filter(inds, IndicatorInDepartment(department.value)) else inds, IndicatorListed(u));
  }

  /** A non-superuser Advisor with a department lists the sector of that
      department, that department alone, and its indicators. */
  lemma AdvisorWithDepartmentScope(u: Principal, sectors: seq<int>, depts: seq<Department>, inds: seq<Indicator>)
    requires !u.isSuperuser && u.role == Advisor && u.department.Some?
    ensures VisibleSectors(u, sectors) == Filter(sectors, (s: int) => s == u.department.value.sector)
    ensures VisibleDepartments(u, None, depts) == Filter(depts, (d: Department) => d.id == u.department.value.id)
    ensures VisibleIndicators(u, None, inds) == Filter(inds, IndicatorInDepartment(u.department.value.id))
  {
    var own := u.department.value;
    FilterSameCondition(sectors, (s: int) => SectorInScope(u, s), (s: int) => s == own.sector);
    FilterSameCondition(depts, DepartmentListed(u), (d: Department) => d.id == own.id);
    FilterSameCondition(inds, IndicatorListed(u), IndicatorInDepartment(own.id));
  }

  /** A non-superuser Advisor with no department but a sector lists that
      sector, its departments, and their indicators. */
  lemma AdvisorWithSectorScope(u: Principal, sectors: seq<int>, depts: seq<Department>, inds: seq<Indicator>)
    requires !u.isSuperuser && u.role == Advisor && u.department.None? && u.sector.Some?
    ensures VisibleSectors(u, sectors) == Filter(sectors, (s: int) => s == u.sector.value)
    ensures VisibleDepartments(u, None, depts) == Filter(depts, DepartmentInSector(u.sector.value))
    ensures VisibleIndicators(u, None, inds) == Filter(inds, (i: Indicator) => i.department.sector == u.sector.value)
  {
    var own := u.sector.value;
    FilterSameCondition(sectors, (s: int) => SectorInScope(u, s), (s: int) => s == own);
    FilterSameCondition(depts, DepartmentListed(u), DepartmentInSector(own));
    FilterSameCondition(inds, IndicatorListed(u), (i: Indicator) => i.department.sector == own);
  }

  /** Without query parameters the three lists agree: a listed indicator's
      department is listed, and a listed department's sector is listed. */
  lemma ScopesAreConsistent(u: Principal, sectors: seq<int>, depts: seq<Department>, inds: seq<Indicator>)
    requires forall i :: i in inds ==> i.department in depts
    requires forall d :: d in depts ==> d.sector in sectors
    requires u.department.Some? ==> forall d :: d in depts && d.id == u.department.value.id ==> d == u.department.value
    ensures forall i :: i in VisibleIndicators(u, None, inds) ==> i.department in VisibleDepartments(u, None, depts)
    ensures forall d :: d in VisibleDepartments(u, None, depts) ==> d.sector in VisibleSectors(u, sectors)
  {
  }
}
