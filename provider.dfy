/**
 * The store object shared by the whole user interface (`HRMSProvider`): one
 * mutable collection per record type, and the operations that replace a
 * collection with a new one. Each operation returns the outcome it would
 * announce, and its new state is the one the `Db` transition of the same
 * name computes.
 */
module Provider {
  import opened Options
  import opened Entities
  import opened Collections
  import opened MasterData

  class Hrms {
    var companies: seq<Company>
    var departments: seq<Department>
    var categories: seq<Category>
    var designations: seq<Designation>
    var shifts: seq<Shift>
    var holidays: seq<Holiday>
    var leaveTypes: seq<LeaveType>
    var employees: seq<Employee>
    var leaveApplications: seq<LeaveApplication>
    var manualEntries: seq<ManualEntry>
    var attendances: seq<Attendance>

    /** The collections as one value. */
    function State(): Db
      reads this
    {
      Db(companies, departments, categories, designations, shifts, holidays, leaveTypes, employees, leaveApplications, manualEntries, attendances)
    }

    /** The store, seeded with sample data or with what was loaded from storage. */
    constructor (initial: Db)
      ensures State() == initial
    {
      companies := initial.companies;
      departments := initial.departments;
      categories := initial.categories;
      designations := initial.designations;
      shifts := initial.shifts;
      holidays := initial.holidays;
      leaveTypes := initial.leaveTypes;
      employees := initial.employees;
      leaveApplications := initial.leaveApplications;
      manualEntries := initial.manualEntries;
      attendances := initial.attendances;
    }

    // ---- Company ----

    method AddCompany(c: Company) returns (outcome: Outcome)
      modifies this
      ensures Step(State(), outcome) == old(State()).AddCompany(c)
    {
      var n := NextId(companies, CompanyId);
      companies := companies + [c.(id := n)];
      outcome := Added(n);
    }

    method UpdateCompany(id: int, p: CompanyPatch) returns (outcome: Outcome)
      modifies this
      ensures Step(State(), outcome) == old(State()).UpdateCompany(id, p)
    {
      companies := UpdateWhere(companies, CompanyId, id, MergeCompany, p);
      outcome := Updated;
    }

    method DeleteCompany(id: int) returns (outcome: Outcome)
      modifies this
      ensures Step(State(), outcome) == old(State()).DeleteCompany(id)
    {
      var referencedByDepartments := Occurs(departments, DepartmentCompany, id);
      if referencedByDepartments {
        return Blocked;
      }
      companies := Remove(companies, CompanyId, id);
      outcome := Deleted;
    }

    // ---- Department ----

    method AddDepartment(d: Department) returns (outcome: Outcome)
      modifies this
      ensures Step(State(), outcome) == old(State()).AddDepartment(d)
    {
      var n := NextId(departments, DepartmentId);
      departments := departments + [d.(id := n)];
      outcome := Added(n);
    }

    method UpdateDepartment(id: int, p: DepartmentPatch) returns (outcome: Outcome)
      modifies this
      ensures Step(State(), outcome) == old(State()).UpdateDepartment(id, p)
    {
      departments := UpdateWhere(departments, DepartmentId, id, MergeDepartment, p);
      outcome := Updated;
    }

    method DeleteDepartment(id: int) returns (outcome: Outcome)
      modifies this
      ensures Step(State(), outcome) == old(State()).DeleteDepartment(id)
    {
      var referencedByDesignations := Occurs(designations, DesignationDepartment, id);
      var referencedByEmployees := Occurs(employees, EmployeeDepartment, id);
      if referencedByDesignations || referencedByEmployees {
        return Blocked;
      }
      departments := Remove(departments, DepartmentId, id);
      outcome := Deleted;
    }

    // ---- Category ----

    method AddCategory(c: Category) returns (outcome: Outcome)
      modifies this
      ensures Step(State(), outcome) == old(State()).AddCategory(c)
    {
      var n := NextId(categories, CategoryId);
      categories := categories + [c.(id := n)];
      outcome := Added(n);
    }

    method UpdateCategory(id: int, p: CategoryPatch) returns (outcome: Outcome)
      modifies this
      ensures Step(State(), outcome) == old(State()).UpdateCategory(id, p)
    {
      categories := UpdateWhere(categories, CategoryId, id, MergeCategory, p);
      outcome := Updated;
    }

    method DeleteCategory(id: int) returns (outcome: Outcome)
      modifies this
      ensures Step(State(), outcome) == old(State()).DeleteCategory(id)
    {
      var referencedByEmployees := Occurs(employees, EmployeeCategory, id);
      if referencedByEmployees {
        return Blocked;
      }
      categories := Remove(categories, CategoryId, id);
      outcome := Deleted;
    }

    // ---- Designation ----

    method AddDesignation(g: Designation) returns (outcome: Outcome)
      modifies this
      ensures Step(State(), outcome) == old(State()).AddDesignation(g)
    {
      var n := NextId(designations, DesignationId);
      designations := designations + [g.(id := n)];
      outcome := Added(n);
    }

    method UpdateDesignation(id: int, p: DesignationPatch) returns (outcome: Outcome)
      modifies this
      ensures Step(State(), outcome) == old(State()).UpdateDesignation(id, p)
    {
      designations := UpdateWhere(designations, DesignationId, id, MergeDesignation, p);
      outcome := Updated;
    }

    method DeleteDesignation(id: int) returns (outcome: Outcome)
      modifies this
      ensures Step(State(), outcome) == old(State()).DeleteDesignation(id)
    {
      var referencedByEmployees := Occurs(employees, EmployeeDesignation, id);
      if referencedByEmployees {
        return Blocked;
      }
      designations := Remove(designations, DesignationId, id);
      outcome := Deleted;
    }

    // ---- Shift ----

    method AddShift(s: Shift) returns (outcome: Outcome)
      modifies this
      ensures Step(State(), outcome) == old(State()).AddShift(s)
    {
      var n := NextId(shifts, ShiftId);
      shifts := shifts + [s.(id := n)];
      outcome := Added(n);
    }

    method UpdateShift(id: int, p: ShiftPatch) returns (outcome: Outcome)
      modifies this
      ensures Step(State(), outcome) == old(State()).UpdateShift(id, p)
    {
      shifts := UpdateWhere(shifts, ShiftId, id, MergeShift, p);
      outcome := Updated;
    }

    method DeleteShift(id: int) returns (outcome: Outcome)
      modifies this
      ensures Step(State(), outcome) == old(State()).DeleteShift(id)
    {
      var referencedByEmployees := Occurs(employees, EmployeeShift, id);
      if referencedByEmployees {
        return Blocked;
      }
      shifts := Remove(shifts, ShiftId, id);
      outcome := Deleted;
    }

    // ---- Holiday ----

    method AddHoliday(h: Holiday) returns (outcome: Outcome)
      modifies this
      ensures Step(State(), outcome) == old(State()).AddHoliday(h)
    {
      var n := NextId(holidays, HolidayId);
      holidays := holidays + [h.(id := n)];
      outcome := Added(n);
    }

    method UpdateHoliday(id: int, p: HolidayPatch) returns (outcome: Outcome)
      modifies this
      ensures Step(State(), outcome) == old(State()).UpdateHoliday(id, p)
    {
      holidays := UpdateWhere(holidays, HolidayId, id, MergeHoliday, p);
      outcome := Updated;
    }

    method DeleteHoliday(id: int) returns (outcome: Outcome)
      modifies this
      ensures Step(State(), outcome) == old(State()).DeleteHoliday(id)
    {
      holidays := Remove(holidays, HolidayId, id);
      outcome := Deleted;
    }

    // ---- LeaveType ----

    method AddLeaveType(t: LeaveType) returns (outcome: Outcome)
      modifies this
      ensures Step(State(), outcome) == old(State()).AddLeaveType(t)
    {
      var n := NextId(leaveTypes, LeaveTypeId);
      leaveTypes := leaveTypes + [t.(id := n)];
      outcome := Added(n);
    }

    method UpdateLeaveType(id: int, p: LeaveTypePatch) returns (outcome: Outcome)
      modifies this
      ensures Step(State(), outcome) == old(State()).UpdateLeaveType(id, p)
    {
      leaveTypes := UpdateWhere(leaveTypes, LeaveTypeId, id, MergeLeaveType, p);
      outcome := Updated;
    }

    method DeleteLeaveType(id: int) returns (outcome: Outcome)
      modifies this
      ensures Step(State(), outcome) == old(State()).DeleteLeaveType(id)
    {
      var referencedByLeaveApplications := Occurs(leaveApplications, LeaveApplicationLeaveType, id);
      if referencedByLeaveApplications {
        return Blocked;
      }
      leaveTypes := Remove(leaveTypes, LeaveTypeId, id);
      outcome := Deleted;
    }

    // ---- Employee ----

    method AddEmployee(e: Employee) returns (outcome: Outcome)
      modifies this
      ensures Step(State(), outcome) == old(State()).AddEmployee(e)
    {
      var n := NextId(employees, EmployeeId);
      employees := employees + [e.(id := n)];
      outcome := Added(n);
    }

    method UpdateEmployee(id: int, p: EmployeePatch) returns (outcome: Outcome)
      modifies this
      ensures Step(State(), outcome) == old(State()).UpdateEmployee(id, p)
    {
      employees := UpdateWhere(employees, EmployeeId, id, MergeEmployee, p);
      outcome := Updated;
    }

    method DeleteEmployee(id: int) returns (outcome: Outcome)
      modifies this
      ensures Step(State(), outcome) == old(State()).DeleteEmployee(id)
    {
      var referencedByLeaveApplications := Occurs(leaveApplications, LeaveApplicationEmployee, id);
      var referencedByManualEntries := Occurs(manualEntries, ManualEntryEmployee, id);
      var referencedByAttendances := Occurs(attendances, AttendanceEmployee, id);
      if referencedByLeaveApplications || referencedByManualEntries || referencedByAttendances {
        return Blocked;
      }
      employees := Remove(employees, EmployeeId, id);
      outcome := Deleted;
    }

    // ---- LeaveApplication ----

    method AddLeaveApplication(a: LeaveApplication, now: Date) returns (outcome: Outcome)
      modifies this
      ensures Step(State(), outcome) == old(State()).AddLeaveApplication(a, now)
    {
      var n := NextId(leaveApplications, LeaveApplicationId);
      leaveApplications := leaveApplications + [a.(id := n, appliedOn := now, status := Pending)];
      outcome := Added(n);
    }

    method UpdateLeaveApplication(id: int, p: LeaveApplicationPatch) returns (outcome: Outcome)
      modifies this
      ensures Step(State(), outcome) == old(State()).UpdateLeaveApplication(id, p)
    {
      leaveApplications := UpdateWhere(leaveApplications, LeaveApplicationId, id, MergeLeaveApplication, p);
      outcome := Updated;
    }

    method DeleteLeaveApplication(id: int) returns (outcome: Outcome)
      modifies this
      ensures Step(State(), outcome) == old(State()).DeleteLeaveApplication(id)
    {
      leaveApplications := Remove(leaveApplications, LeaveApplicationId, id);
      outcome := Deleted;
    }

    method ApproveLeaveApplication(id: int) returns (outcome: Outcome)
      modifies this
      ensures Step(State(), outcome) == old(State()).ApproveLeaveApplication(id)
    {
      leaveApplications := UpdateWhere(leaveApplications, LeaveApplicationId, id, WithStatus, Approved);
      outcome := Updated;
    }

    method RejectLeaveApplication(id: int) returns (outcome: Outcome)
      modifies this
      ensures Step(State(), outcome) == old(State()).RejectLeaveApplication(id)
    {
      leaveApplications := UpdateWhere(leaveApplications, LeaveApplicationId, id, WithStatus, Rejected);
      outcome := Updated;
    }

    // ---- ManualEntry ----

    method AddManualEntry(m: ManualEntry) returns (outcome: Outcome)
      modifies this
      ensures Step(State(), outcome) == old(State()).AddManualEntry(m)
    {
      var n := NextId(manualEntries, ManualEntryId);
      manualEntries := manualEntries + [m.(id := n)];
      outcome := Added(n);
    }

    method UpdateManualEntry(id: int, p: ManualEntryPatch) returns (outcome: Outcome)
      modifies this
      ensures Step(State(), outcome) == old(State()).UpdateManualEntry(id, p)
    {
      manualEntries := UpdateWhere(manualEntries, ManualEntryId, id, MergeManualEntry, p);
      outcome := Updated;
    }

    method DeleteManualEntry(id: int) returns (outcome: Outcome)
      modifies this
      ensures Step(State(), outcome) == old(State()).DeleteManualEntry(id)
    {
      manualEntries := Remove(manualEntries, ManualEntryId, id);
      outcome := Deleted;
    }

    // ---- lookups ----

    function GetDepartmentById(id: int): (r: Option<Department>)
      reads this
      ensures r.None? <==> forall x :: x in departments ==> x.id != id
      ensures r.Some? ==> exists i :: 0 <= i < |departments| && departments[i] == r.value && r.value.id == id
                                      && forall j :: 0 <= j < i ==> departments[j].id != id
    {
      Find(departments, DepartmentId, id)
    }

    function GetCategoryById(id: int): (r: Option<Category>)
      reads this
      ensures r.None? <==> forall x :: x in categories ==> x.id != id
      ensures r.Some? ==> exists i :: 0 <= i < |categories| && categories[i] == r.value && r.value.id == id
                                      && forall j :: 0 <= j < i ==> categories[j].id != id
    {
      Find(categories, CategoryId, id)
    }

    function GetDesignationById(id: int): (r: Option<Designation>)
      reads this
      ensures r.None? <==> forall x :: x in designations ==> x.id != id
      ensures r.Some? ==> exists i :: 0 <= i < |designations| && designations[i] == r.value && r.value.id == id
                                      && forall j :: 0 <= j < i ==> designations[j].id != id
    {
      Find(designations, DesignationId, id)
    }

    function GetShiftById(id: int): (r: Option<Shift>)
      reads this
      ensures r.None? <==> forall x :: x in shifts ==> x.id != id
      ensures r.Some? ==> exists i :: 0 <= i < |shifts| && shifts[i] == r.value && r.value.id == id
                                      && forall j :: 0 <= j < i ==> shifts[j].id != id
    {
      Find(shifts, ShiftId, id)
    }

    function GetEmployeeById(id: int): (r: Option<Employee>)
      reads this
      ensures r.None? <==> forall x :: x in employees ==> x.id != id
      ensures r.Some? ==> exists i :: 0 <= i < |employees| && employees[i] == r.value && r.value.id == id
                                      && forall j :: 0 <= j < i ==> employees[j].id != id
    {
      Find(employees, EmployeeId, id)
    }

    function GetLeaveTypeById(id: int): (r: Option<LeaveType>)
      reads this
      ensures r.None? <==> forall x :: x in leaveTypes ==> x.id != id
      ensures r.Some? ==> exists i :: 0 <= i < |leaveTypes| && leaveTypes[i] == r.value && r.value.id == id
                                      && forall j :: 0 <= j < i ==> leaveTypes[j].id != id
    {
      Find(leaveTypes, LeaveTypeId, id)
    }

    function GetCompanyById(id: int): (r: Option<Company>)
      reads this
      ensures r.None? <==> forall x :: x in companies ==> x.id != id
      ensures r.Some? ==> exists i :: 0 <= i < |companies| && companies[i] == r.value && r.value.id == id
                                      && forall j :: 0 <= j < i ==> companies[j].id != id
    {
      Find(companies, CompanyId, id)
    }

  }
}
