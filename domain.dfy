/** The entities the approval logic reads: users with their role and
    assignment, sectors, departments, indicators, annual plans, and the
    status shared by breakdowns and performance reports. */
module Domain {
  import opened Wrappers

  /** `User.Roles`. */
  datatype Role = Advisor | StateMinister | StrategicStaff | Executive | LeadExecutiveBody | MinisterView

  /** A department and the id of the state-minister sector it belongs to. */
  datatype Department = Department(id: int, sector: int)

  datatype Indicator = Indicator(id: int, department: Department)

  /** An AnnualPlan; `target` is in hundredths (two decimal places). */
  datatype Plan = Plan(id: int, year: int, indicator: Indicator, target: int)

  /** The authenticated user making a request. Database ids are positive, so
      an assigned department or sector is exactly a present one. */
  datatype Principal = Principal(
    id: int,
    role: Role,
    isSuperuser: bool,
    department: Option<Department>,
    sector: Option<int>)

  /** `PlanStatus`, and `PerformanceStatus`, which has the same six values. */
  datatype Status = Draft | Submitted | Approved | Validated | FinalApproved | Rejected

  /** The statuses at or beyond the State Minister's approval. */
  const ApprovedOrAbove: set<Status> := {Approved, Validated, FinalApproved}

  /** The department a plan's records belong to. */
  function PlanDepartment(p: Plan): Department {
    p.indicator.department
  }

  /** `not user_dept or department.id == user_dept`: a user with no assigned
      department passes every department check. */
  predicate DepartmentMatches(u: Principal, d: Department) {
    u.department.None? || u.department.value.id == d.id
  }
}
