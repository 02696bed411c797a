/** Which annual plans, quarterly breakdowns and quarterly performance
    reports a user may list or act on: the `get_queryset` of the three plan
    viewsets. Every action on a record goes through `get_object()`, which
    looks the record up in this queryset, so a record outside it is NotFound. */
module PlanVisibility {
  import opened Wrappers
  import opened Domain
  import opened Seqs

  datatype BreakdownRow = BreakdownRow(id: int, plan: Plan, status: Status)

  datatype PerformanceRow = PerformanceRow(id: int, plan: Plan, quarter: int, status: Status)

  /** The role filter that breakdowns and performance reports share, for a
      record of department `d` in status `s`. */
  predicate RecordVisible(u: Principal, d: Department, s: Status) {
    if u.isSuperuser then true
    else match u.role
      case StrategicStaff => DepartmentMatches(u, d)
      case Executive => DepartmentMatches(u, d)
      case MinisterView => s in ApprovedOrAbove
      case StateMinister =>
        if u.department.Some? then u.department.value.id == d.id
        else u.sector.None? || u.sector.value == d.sector
      case Advisor => u.sector.None? || u.sector.value == d.sector
      case LeadExecutiveBody => DepartmentMatches(u, d)
  }

  /** The status of a record matters to the read-only Minister alone, who
      sees every department's records once approved; everyone else is
      scoped by department or sector, whatever the status. */
  lemma StatusMattersOnlyToMinisterView(u: Principal, d: Department, s: Status, t: Status)
    ensures !u.isSuperuser && u.role == MinisterView ==> (RecordVisible(u, d, s) <==> s in ApprovedOrAbove)
    ensures u.isSuperuser || u.role != MinisterView ==> RecordVisible(u, d, s) == RecordVisible(u, d, t)
  {
  }

  /** `QuarterlyBreakdownViewSet.get_queryset`. */
  function VisibleBreakdowns(u: Principal, rows: seq<BreakdownRow>): (r: seq<BreakdownRow>)
    ensures forall x :: x in r <==> x in rows && RecordVisible(u, PlanDepartment(x.plan), x.status)
  {
    if u.isSuperuser then rows
    else Filter(rows, (x: BreakdownRow) => RecordVisible(u, PlanDepartment(x.plan), x.status))
  }

  /** A superuser lists every breakdown, whatever their role. */
  lemma SuperuserSeesEveryBreakdown(u: Principal, rows: seq<BreakdownRow>)
    requires u.isSuperuser
    ensures VisibleBreakdowns(u, rows) == rows
  {
  }

  /** The read-only Minister lists exactly the approved-or-beyond breakdowns, in order. */
  lemma MinisterViewSeesApprovedBreakdowns(u: Principal, rows: seq<BreakdownRow>)
    requires !u.isSuperuser && u.role == MinisterView
    ensures VisibleBreakdowns(u, rows) == Filter(rows, (x: BreakdownRow) => x.status in ApprovedOrAbove)
  {
    FilterSameCondition(rows, (x: BreakdownRow) => RecordVisible(u, PlanDepartment(x.plan), x.status),
                              (x: BreakdownRow) => x.status in ApprovedOrAbove);
  }

  /** A State Minister with a department lists that department's breakdowns
      only, whatever sector they are also assigned. */
  lemma StateMinisterDepartmentFirst(u: Principal, rows: seq<BreakdownRow>)
    requires !u.isSuperuser && u.role == StateMinister && u.department.Some?
    ensures VisibleBreakdowns(u, rows)
         == Filter(rows, (x: BreakdownRow) => PlanDepartment(x.plan).id == u.department.value.id)
  {
    FilterSameCondition(rows, (x: BreakdownRow) => RecordVisible(u, PlanDepartment(x.plan), x.status),
                              (x: BreakdownRow) => PlanDepartment(x.plan).id == u.department.value.id);
  }

  /** Users tied to a department (other than the read-only Minister and the
      Advisor, who are scoped otherwise) see only that department's records. */
  lemma DepartmentScopeBounds(u: Principal, d: Department, s: Status)
    requires !u.isSuperuser && u.department.Some? && u.role != MinisterView && u.role != Advisor
    requires RecordVisible(u, d, s)
    ensures d.id == u.department.value.id
  {
  }

  predicate PerformanceMatchesQuery(year: Option<int>, quarter: Option<int>, x: PerformanceRow) {
    (year.None? || x.plan.year == year.value) && (quarter.None? || x.quarter == quarter.value)
  }

  function PerformanceOfYear(year: int): PerformanceRow -> bool {
    (x: PerformanceRow) => x.plan.year == year
  }

  function PerformanceOfQuarter(quarter: int): PerformanceRow -> bool {
    (x: PerformanceRow) => x.quarter == quarter
  }

  function PerformanceListed(u: Principal): PerformanceRow -> bool {
    (x: PerformanceRow) => RecordVisible(u, PlanDepartment(x.plan), x.status)
  }

  /** `QuarterlyPerformanceViewSet.get_queryset`: the `year` and `quarter`
      query parameters (`None` when absent or not an integer) narrow first,
      then the role filter. */
  function VisiblePerformances(u: Principal, year: Option<int>, quarter: Option<int>, rows: seq<PerformanceRow>): (r: seq<PerformanceRow>)
    ensures forall x :: x in r <==> x in rows && PerformanceMatchesQuery(year, quarter, x)
                                    && RecordVisible(u, PlanDepartment(x.plan), x.status)
  {
    var byYear := if year.Some? then Filter(rows, PerformanceOfYear(year.value)) else rows;
    var byQuarter := if quarter.Some? then Filter(byYear, PerformanceOfQuarter(quarter.value)) else byYear;
    if u.isSuperuser then byQuarter
    else Filter(byQuarter, PerformanceListed(u))
  }

  /** The chained filters amount to one filter by both the query and the
      role: the result is their intersection, in queryset order. */
  lemma PerformanceQueryAndRoleIntersect(u: Principal, year: Option<int>, quarter: Option<int>, rows: seq<PerformanceRow>)
    ensures VisiblePerformances(u, year, quarter, rows)
         == Filter(rows, (x: PerformanceRow) => PerformanceMatchesQuery(year, quarter, x)
                                                && RecordVisible(u, PlanDepartment(x.plan), x.status))
  {
    var y := (x: PerformanceRow) => year.None? || x.plan.year == year.value;
    var q := (x: PerformanceRow) => quarter.None? || x.quarter == quarter.value;
    var yq := (x: PerformanceRow) => PerformanceMatchesQuery(year, quarter, x);
    var v := PerformanceListed(u);
    var byYear := if year.Some? then Filter(rows, PerformanceOfYear(year.value)) else rows;
    var byQuarter := if quarter.Some? then Filter(byYear, PerformanceOfQuarter(quarter.value)) else byYear;
    if year.Some? {
      FilterSameCondition(rows, PerformanceOfYear(year.value), y);
    } else {
      FilterKeepsAll(rows, y);
    }
    if quarter.Some? {
      FilterSameCondition(byYear, PerformanceOfQuarter(quarter.value), q);
    } else {
      FilterKeepsAll(byYear, q);
    }
    FilterFilter(rows, y, q, yq);
    assert byQuarter == Filter(rows, yq);
    if u.isSuperuser {
      FilterKeepsAll(byQuarter, v);
    }
    FilterFilter(rows, yq, v, (x: PerformanceRow) => PerformanceMatchesQuery(year, quarter, x)
                                                     && RecordVisible(u, PlanDepartment(x.plan), x.status));
  }

  /** The role part of `AnnualPlanViewSet.get_queryset`. Annual plans carry
      no status, and a State Minister is scoped by sector only. */
  predicate PlanVisible(u: Principal, p: Plan) {
    if u.isSuperuser then true
    else match u.role
      case StrategicStaff => DepartmentMatches(u, PlanDepartment(p))
      case Executive => DepartmentMatches(u, PlanDepartment(p))
      case MinisterView => true
      case StateMinister => u.sector.None? || PlanDepartment(p).sector == u.sector.value
      case Advisor => u.sector.None? || PlanDepartment(p).sector == u.sector.value
      case LeadExecutiveBody => DepartmentMatches(u, PlanDepartment(p))
  }

  /** `AnnualPlanViewSet.get_queryset`: the `year` query parameter, then the role. */
  function VisiblePlans(u: Principal, year: Option<int>, plans: seq<Plan>): (r: seq<Plan>)
    ensures forall p :: p in r <==> p in plans && (year.None? || p.year == year.value) && PlanVisible(u, p)
  {
    var byYear := if year.Some? then Filter(plans, (p: Plan) => p.year == year.value) else plans;
    if u.isSuperuser then byYear
    else Filter(byYear, (p: Plan) => PlanVisible(u, p))
  }

  /** The read-only Minister lists every annual plan of the requested year. */
  lemma MinisterViewSeesEveryPlan(u: Principal, year: Option<int>, plans: seq<Plan>)
    requires u.role == MinisterView
    ensures VisiblePlans(u, year, plans)
         == if year.Some? then Filter(plans, (p: Plan) => p.year == year.value) else plans
  {
    var byYear := if year.Some? then Filter(plans, (p: Plan) => p.year == year.value) else plans;
    FilterKeepsAll(byYear, (p: Plan) => PlanVisible(u, p));
  }

  /** A State Minister assigned both a department and a sector sees the
      sector's annual plans but only the department's breakdowns. */
  lemma StateMinisterPlansWiderThanBreakdowns(u: Principal, p: Plan, s: Status)
    requires !u.isSuperuser && u.role == StateMinister && u.department.Some? && u.sector.Some?
    requires PlanDepartment(p).sector == u.sector.value && PlanDepartment(p).id != u.department.value.id
    ensures PlanVisible(u, p) && !RecordVisible(u, PlanDepartment(p), s)
  {
  }
}
