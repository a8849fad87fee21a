/**
 * The master-data store as a value: the eleven collections, one transition
 * function per operation of the store, and the predicates the integrity
 * lemmas speak about. Each transition yields the new collections and the
 * outcome that the store reports in place of its toast notification.
 */
module MasterData {
  import opened Options
  import opened Entities
  import opened Collections

  /** What an operation reports: the toast it would show. */
  datatype Outcome = Added(id: int) | Updated | Deleted | Blocked

  datatype Step = Step(db: Db, outcome: Outcome)

  datatype Db = Db(
    companies: seq<Company>,
    departments: seq<Department>,
    categories: seq<Category>,
    designations: seq<Designation>,
    shifts: seq<Shift>,
    holidays: seq<Holiday>,
    leaveTypes: seq<LeaveType>,
    employees: seq<Employee>,
    leaveApplications: seq<LeaveApplication>,
    manualEntries: seq<ManualEntry>,
    attendances: seq<Attendance>)
  {
    // ---- Company ----

    /** A copy of `c` with the next id, appended at the end. */
    function AddCompany(c: Company): (r: Step)
      ensures r.outcome.Added?
      ensures r.db == this.(companies := companies + [c.(id := r.outcome.id)])
      ensures forall x :: x in companies ==> x.id < r.outcome.id
      ensures companies == [] ==> r.outcome.id == 1
      ensures companies != [] ==> exists x :: x in companies && r.outcome.id == x.id + 1
      ensures Find(r.db.companies, CompanyId, r.outcome.id) == Some(c.(id := r.outcome.id))
    {
      var n := NextId(companies, CompanyId);
      FindAppendedFresh(companies, CompanyId, c.(id := n));
      Step(this.(companies := companies + [c.(id := n)]), Added(n))
    }

    /** The shallow merge of `p` into every record whose id is `id`; reported as updated even when there is none. */
    function UpdateCompany(id: int, p: CompanyPatch): (r: Step)
      ensures r.outcome == Updated
      ensures r.db == this.(companies := UpdateWhere(companies, CompanyId, id, MergeCompany, p))
      ensures (forall x :: x in companies ==> x.id != id) ==> r.db == this
    {
      UpdateAbsentIsNoop(companies, CompanyId, id, MergeCompany, p);
      Step(this.(companies := UpdateWhere(companies, CompanyId, id, MergeCompany, p)), Updated)
    }

    /** Refused while any of departments refers to `id`; otherwise every record with that id is removed. */
    function DeleteCompany(id: int): (r: Step)
      ensures r.outcome.Blocked? <==> (exists d :: d in departments && d.companyId == id)
      ensures r.outcome.Blocked? ==> r.db == this
      ensures !r.outcome.Blocked? ==> r.outcome == Deleted && r.db == this.(companies := Remove(companies, CompanyId, id))
    {
      if Occurs(departments, DepartmentCompany, id) then Step(this, Blocked)
      else Step(this.(companies := Remove(companies, CompanyId, id)), Deleted)
    }

    // ---- Department ----

    /** A copy of `d` with the next id, appended at the end. */
    function AddDepartment(d: Department): (r: Step)
      ensures r.outcome.Added?
      ensures r.db == this.(departments := departments + [d.(id := r.outcome.id)])
      ensures forall x :: x in departments ==> x.id < r.outcome.id
      ensures departments == [] ==> r.outcome.id == 1
      ensures departments != [] ==> exists x :: x in departments && r.outcome.id == x.id + 1
      ensures Find(r.db.departments, DepartmentId, r.outcome.id) == Some(d.(id := r.outcome.id))
    {
      var n := NextId(departments, DepartmentId);
      FindAppendedFresh(departments, DepartmentId, d.(id := n));
      Step(this.(departments := departments + [d.(id := n)]), Added(n))
    }

    /** The shallow merge of `p` into every record whose id is `id`; reported as updated even when there is none. */
    function UpdateDepartment(id: int, p: DepartmentPatch): (r: Step)
      ensures r.outcome == Updated
      ensures r.db == this.(departments := UpdateWhere(departments, DepartmentId, id, MergeDepartment, p))
      ensures (forall x :: x in departments ==> x.id != id) ==> r.db == this
    {
      UpdateAbsentIsNoop(departments, DepartmentId, id, MergeDepartment, p);
      Step(this.(departments := UpdateWhere(departments, DepartmentId, id, MergeDepartment, p)), Updated)
    }

    /** Refused while any of designations, employees refers to `id`; otherwise every record with that id is removed. */
    function DeleteDepartment(id: int): (r: Step)
      ensures r.outcome.Blocked? <==> (exists g :: g in designations && g.departmentId == id) || (exists e :: e in employees && e.departmentId == id)
      ensures r.outcome.Blocked? ==> r.db == this
      ensures !r.outcome.Blocked? ==> r.outcome == Deleted && r.db == this.(departments := Remove(departments, DepartmentId, id))
    {
      if Occurs(designations, DesignationDepartment, id) || Occurs(employees, EmployeeDepartment, id) then Step(this, Blocked)
      else Step(this.(departments := Remove(departments, DepartmentId, id)), Deleted)
    }

    // ---- Category ----

    /** A copy of `c` with the next id, appended at the end. */
    function AddCategory(c: Category): (r: Step)
      ensures r.outcome.Added?
      ensures r.db == this.(categories := categories + [c.(id := r.outcome.id)])
      ensures forall x :: x in categories ==> x.id < r.outcome.id
      ensures categories == [] ==> r.outcome.id == 1
      ensures categories != [] ==> exists x :: x in categories && r.outcome.id == x.id + 1
      ensures Find(r.db.categories, CategoryId, r.outcome.id) == Some(c.(id := r.outcome.id))
    {
      var n := NextId(categories, CategoryId);
      FindAppendedFresh(categories, CategoryId, c.(id := n));
      Step(this.(categories := categories + [c.(id := n)]), Added(n))
    }

    /** The shallow merge of `p` into every record whose id is `id`; reported as updated even when there is none. */
    function UpdateCategory(id: int, p: CategoryPatch): (r: Step)
      ensures r.outcome == Updated
      ensures r.db == this.(categories := UpdateWhere(categories, CategoryId, id, MergeCategory, p))
      ensures (forall x :: x in categories ==> x.id != id) ==> r.db == this
    {
      UpdateAbsentIsNoop(categories, CategoryId, id, MergeCategory, p);
      Step(this.(categories := UpdateWhere(categories, CategoryId, id, MergeCategory, p)), Updated)
    }

    /** Refused while any of employees refers to `id`; otherwise every record with that id is removed. */
    function DeleteCategory(id: int): (r: Step)
      ensures r.outcome.Blocked? <==> (exists e :: e in employees && e.categoryId == id)
      ensures r.outcome.Blocked? ==> r.db == this
      ensures !r.outcome.Blocked? ==> r.outcome == Deleted && r.db == this.(categories := Remove(categories, CategoryId, id))
    {
      if Occurs(employees, EmployeeCategory, id) then Step(this, Blocked)
      else Step(this.(categories := Remove(categories, CategoryId, id)), Deleted)
    }

    // ---- Designation ----

    /** A copy of `g` with the next id, appended at the end. */
    function AddDesignation(g: Designation): (r: Step)
      ensures r.outcome.Added?
      ensures r.db == this.(designations := designations + [g.(id := r.outcome.id)])
      ensures forall x :: x in designations ==> x.id < r.outcome.id
      ensures designations == [] ==> r.outcome.id == 1
      ensures designations != [] ==> exists x :: x in designations && r.outcome.id == x.id + 1
      ensures Find(r.db.designations, DesignationId, r.outcome.id) == Some(g.(id := r.outcome.id))
    {
      var n := NextId(designations, DesignationId);
      FindAppendedFresh(designations, DesignationId, g.(id := n));
      Step(this.(designations := designations + [g.(id := n)]), Added(n))
    }

    /** The shallow merge of `p` into every record whose id is `id`; reported as updated even when there is none. */
    function UpdateDesignation(id: int, p: DesignationPatch): (r: Step)
      ensures r.outcome == Updated
      ensures r.db == this.(designations := UpdateWhere(designations, DesignationId, id, MergeDesignation, p))
      ensures (forall x :: x in designations ==> x.id != id) ==> r.db == this
    {
      UpdateAbsentIsNoop(designations, DesignationId, id, MergeDesignation, p);
      Step(this.(designations := UpdateWhere(designations, DesignationId, id, MergeDesignation, p)), Updated)
    }

    /** Refused while any of employees refers to `id`; otherwise every record with that id is removed. */
    function DeleteDesignation(id: int): (r: Step)
      ensures r.outcome.Blocked? <==> (exists e :: e in employees && e.designationId == id)
      ensures r.outcome.Blocked? ==> r.db == this
      ensures !r.outcome.Blocked? ==> r.outcome == Deleted && r.db == this.(designations := Remove(designations, DesignationId, id))
    {
      if Occurs(employees, EmployeeDesignation, id) then Step(this, Blocked)
      else Step(this.(designations := Remove(designations, DesignationId, id)), Deleted)
    }

    // ---- Shift ----

    /** A copy of `s` with the next id, appended at the end. */
    function AddShift(s: Shift): (r: Step)
      ensures r.outcome.Added?
      ensures r.db == this.(shifts := shifts + [s.(id := r.outcome.id)])
      ensures forall x :: x in shifts ==> x.id < r.outcome.id
      ensures shifts == [] ==> r.outcome.id == 1
      ensures shifts != [] ==> exists x :: x in shifts && r.outcome.id == x.id + 1
      ensures Find(r.db.shifts, ShiftId, r.outcome.id) == Some(s.(id := r.outcome.id))
    {
      var n := NextId(shifts, ShiftId);
      FindAppendedFresh(shifts, ShiftId, s.(id := n));
      Step(this.(shifts := shifts + [s.(id := n)]), Added(n))
    }

    /** The shallow merge of `p` into every record whose id is `id`; reported as updated even when there is none. */
    function UpdateShift(id: int, p: ShiftPatch): (r: Step)
      ensures r.outcome == Updated
      ensures r.db == this.(shifts := UpdateWhere(shifts, ShiftId, id, MergeShift, p))
      ensures (forall x :: x in shifts ==> x.id != id) ==> r.db == this
    {
      UpdateAbsentIsNoop(shifts, ShiftId, id, MergeShift, p);
      Step(this.(shifts := UpdateWhere(shifts, ShiftId, id, MergeShift, p)), Updated)
    }

    /** Refused while any of employees refers to `id`; otherwise every record with that id is removed. */
    function DeleteShift(id: int): (r: Step)
      ensures r.outcome.Blocked? <==> (exists e :: e in employees && e.shiftId == id)
      ensures r.outcome.Blocked? ==> r.db == this
      ensures !r.outcome.Blocked? ==> r.outcome == Deleted && r.db == this.(shifts := Remove(shifts, ShiftId, id))
    {
      if Occurs(employees, EmployeeShift, id) then Step(this, Blocked)
      else Step(this.(shifts := Remove(shifts, ShiftId, id)), Deleted)
    }

    // ---- Holiday ----

    /** A copy of `h` with the next id, appended at the end. */
    function AddHoliday(h: Holiday): (r: Step)
      ensures r.outcome.Added?
      ensures r.db == this.(holidays := holidays + [h.(id := r.outcome.id)])
      ensures forall x :: x in holidays ==> x.id < r.outcome.id
      ensures holidays == [] ==> r.outcome.id == 1
      ensures holidays != [] ==> exists x :: x in holidays && r.outcome.id == x.id + 1
      ensures Find(r.db.holidays, HolidayId, r.outcome.id) == Some(h.(id := r.outcome.id))
    {
      var n := NextId(holidays, HolidayId);
      FindAppendedFresh(holidays, HolidayId, h.(id := n));
      Step(this.(holidays := holidays + [h.(id := n)]), Added(n))
    }

    /** The shallow merge of `p` into every record whose id is `id`; reported as updated even when there is none. */
    function UpdateHoliday(id: int, p: HolidayPatch): (r: Step)
      ensures r.outcome == Updated
      ensures r.db == this.(holidays := UpdateWhere(holidays, HolidayId, id, MergeHoliday, p))
      ensures (forall x :: x in holidays ==> x.id != id) ==> r.db == this
    {
      UpdateAbsentIsNoop(holidays, HolidayId, id, MergeHoliday, p);
      Step(this.(holidays := UpdateWhere(holidays, HolidayId, id, MergeHoliday, p)), Updated)
    }

    /** Every record with id `id` removed; nothing refers to a holiday, so this is never refused. */
    function DeleteHoliday(id: int): (r: Step)
      ensures r.outcome == Deleted
      ensures r.db == this.(holidays := Remove(holidays, HolidayId, id))
    {
      Step(this.(holidays := Remove(holidays, HolidayId, id)), Deleted)
    }

    // ---- LeaveType ----

    /** A copy of `t` with the next id, appended at the end. */
    function AddLeaveType(t: LeaveType): (r: Step)
      ensures r.outcome.Added?
      ensures r.db == this.(leaveTypes := leaveTypes + [t.(id := r.outcome.id)])
      ensures forall x :: x in leaveTypes ==> x.id < r.outcome.id
      ensures leaveTypes == [] ==> r.outcome.id == 1
      ensures leaveTypes != [] ==> exists x :: x in leaveTypes && r.outcome.id == x.id + 1
      ensures Find(r.db.leaveTypes, LeaveTypeId, r.outcome.id) == Some(t.(id := r.outcome.id))
    {
      var n := NextId(leaveTypes, LeaveTypeId);
      FindAppendedFresh(leaveTypes, LeaveTypeId, t.(id := n));
      Step(this.(leaveTypes := leaveTypes + [t.(id := n)]), Added(n))
    }

    /** The shallow merge of `p` into every record whose id is `id`; reported as updated even when there is none. */
    function UpdateLeaveType(id: int, p: LeaveTypePatch): (r: Step)
      ensures r.outcome == Updated
      ensures r.db == this.(leaveTypes := UpdateWhere(leaveTypes, LeaveTypeId, id, MergeLeaveType, p))
      ensures (forall x :: x in leaveTypes ==> x.id != id) ==> r.db == this
    {
      UpdateAbsentIsNoop(leaveTypes, LeaveTypeId, id, MergeLeaveType, p);
      Step(this.(leaveTypes := UpdateWhere(leaveTypes, LeaveTypeId, id, MergeLeaveType, p)), Updated)
    }

    /** Refused while any of leaveApplications refers to `id`; otherwise every record with that id is removed. */
    function DeleteLeaveType(id: int): (r: Step)
      ensures r.outcome.Blocked? <==> (exists a :: a in leaveApplications && a.leaveTypeId == id)
      ensures r.outcome.Blocked? ==> r.db == this
      ensures !r.outcome.Blocked? ==> r.outcome == Deleted && r.db == this.(leaveTypes := Remove(leaveTypes, LeaveTypeId, id))
    {
      if Occurs(leaveApplications, LeaveApplicationLeaveType, id) then Step(this, Blocked)
      else Step(this.(leaveTypes := Remove(leaveTypes, LeaveTypeId, id)), Deleted)
    }

    // ---- Employee ----

    /** A copy of `e` with the next id, appended at the end. */
    function AddEmployee(e: Employee): (r: Step)
      ensures r.outcome.Added?
      ensures r.db == this.(employees := employees + [e.(id := r.outcome.id)])
      ensures forall x :: x in employees ==> x.id < r.outcome.id
      ensures employees == [] ==> r.outcome.id == 1
      ensures employees != [] ==> exists x :: x in employees && r.outcome.id == x.id + 1
      ensures Find(r.db.employees, EmployeeId, r.outcome.id) == Some(e.(id := r.outcome.id))
    {
      var n := NextId(employees, EmployeeId);
      FindAppendedFresh(employees, EmployeeId, e.(id := n));
      Step(this.(employees := employees + [e.(id := n)]), Added(n))
    }

    /** The shallow merge of `p` into every record whose id is `id`; reported as updated even when there is none. */
    function UpdateEmployee(id: int, p: EmployeePatch): (r: Step)
      ensures r.outcome == Updated
      ensures r.db == this.(employees := UpdateWhere(employees, EmployeeId, id, MergeEmployee, p))
      ensures (forall x :: x in employees ==> x.id != id) ==> r.db == this
    {
      UpdateAbsentIsNoop(employees, EmployeeId, id, MergeEmployee, p);
      Step(this.(employees := UpdateWhere(employees, EmployeeId, id, MergeEmployee, p)), Updated)
    }

    /** Refused while any of leaveApplications, manualEntries, attendances refers to `id`; otherwise every record with that id is removed. */
    function DeleteEmployee(id: int): (r: Step)
      ensures r.outcome.Blocked? <==> (exists a :: a in leaveApplications && a.employeeId == id) || (exists m :: m in manualEntries && m.employeeId == id) || (exists a :: a in attendances && a.employeeId == id)
      ensures r.outcome.Blocked? ==> r.db == this
      ensures !r.outcome.Blocked? ==> r.outcome == Deleted && r.db == this.(employees := Remove(employees, EmployeeId, id))
    {
      if Occurs(leaveApplications, LeaveApplicationEmployee, id) || Occurs(manualEntries, ManualEntryEmployee, id) || Occurs(attendances, AttendanceEmployee, id) then Step(this, Blocked)
      else Step(this.(employees := Remove(employees, EmployeeId, id)), Deleted)
    }

    // ---- LeaveApplication ----

    /** A copy of `a` with the next id, status Pending and `appliedOn` the current time, appended at the end. */
    function AddLeaveApplication(a: LeaveApplication, now: Date): (r: Step)
      ensures r.outcome.Added?
      ensures r.db == this.(leaveApplications := leaveApplications + [a.(id := r.outcome.id, status := Pending, appliedOn := now)])
      ensures forall x :: x in leaveApplications ==> x.id < r.outcome.id
      ensures leaveApplications == [] ==> r.outcome.id == 1
      ensures leaveApplications != [] ==> exists x :: x in leaveApplications && r.outcome.id == x.id + 1
      ensures Find(r.db.leaveApplications, LeaveApplicationId, r.outcome.id) == Some(a.(id := r.outcome.id, status := Pending, appliedOn := now))
    {
      var n := NextId(leaveApplications, LeaveApplicationId);
      FindAppendedFresh(leaveApplications, LeaveApplicationId, a.(id := n, status := Pending, appliedOn := now));
      Step(this.(leaveApplications := leaveApplications + [a.(id := n, status := Pending, appliedOn := now)]), Added(n))
    }

    /** The shallow merge of `p` into every record whose id is `id`; reported as updated even when there is none. */
    function UpdateLeaveApplication(id: int, p: LeaveApplicationPatch): (r: Step)
      ensures r.outcome == Updated
      ensures r.db == this.(leaveApplications := UpdateWhere(leaveApplications, LeaveApplicationId, id, MergeLeaveApplication, p))
      ensures (forall x :: x in leaveApplications ==> x.id != id) ==> r.db == this
    {
      UpdateAbsentIsNoop(leaveApplications, LeaveApplicationId, id, MergeLeaveApplication, p);
      Step(this.(leaveApplications := UpdateWhere(leaveApplications, LeaveApplicationId, id, MergeLeaveApplication, p)), Updated)
    }

    /** Every record with id `id` removed; nothing refers to a leave application, so this is never refused. */
    function DeleteLeaveApplication(id: int): (r: Step)
      ensures r.outcome == Deleted
      ensures r.db == this.(leaveApplications := Remove(leaveApplications, LeaveApplicationId, id))
    {
      Step(this.(leaveApplications := Remove(leaveApplications, LeaveApplicationId, id)), Deleted)
    }

    /** Status Approved on every application whose id is `id`, whatever its status was; nothing else changes. */
    function ApproveLeaveApplication(id: int): (r: Step)
      ensures r.outcome == Updated
      ensures |r.db.leaveApplications| == |leaveApplications|
      ensures forall i :: 0 <= i < |leaveApplications| ==>
                var (before, after) := (leaveApplications[i], r.db.leaveApplications[i]);
                if before.id == id then after == before.(status := Approved) else after == before
      ensures r.db.(leaveApplications := leaveApplications) == this
    {
      Step(this.(leaveApplications := UpdateWhere(leaveApplications, LeaveApplicationId, id, WithStatus, Approved)), Updated)
    }

    /** Status Rejected on every application whose id is `id`, whatever its status was; nothing else changes. */
    function RejectLeaveApplication(id: int): (r: Step)
      ensures r.outcome == Updated
      ensures |r.db.leaveApplications| == |leaveApplications|
      ensures forall i :: 0 <= i < |leaveApplications| ==>
                var (before, after) := (leaveApplications[i], r.db.leaveApplications[i]);
                if before.id == id then after == before.(status := Rejected) else after == before
      ensures r.db.(leaveApplications := leaveApplications) == this
    {
      Step(this.(leaveApplications := UpdateWhere(leaveApplications, LeaveApplicationId, id, WithStatus, Rejected)), Updated)
    }

    // ---- ManualEntry ----

    /** A copy of `m` with the next id, appended at the end. */
    function AddManualEntry(m: ManualEntry): (r: Step)
      ensures r.outcome.Added?
      ensures r.db == this.(manualEntries := manualEntries + [m.(id := r.outcome.id)])
      ensures forall x :: x in manualEntries ==> x.id < r.outcome.id
      ensures manualEntries == [] ==> r.outcome.id == 1
      ensures manualEntries != [] ==> exists x :: x in manualEntries && r.outcome.id == x.id + 1
      ensures Find(r.db.manualEntries, ManualEntryId, r.outcome.id) == Some(m.(id := r.outcome.id))
    {
      var n := NextId(manualEntries, ManualEntryId);
      FindAppendedFresh(manualEntries, ManualEntryId, m.(id := n));
      Step(this.(manualEntries := manualEntries + [m.(id := n)]), Added(n))
    }

    /** The shallow merge of `p` into every record whose id is `id`; reported as updated even when there is none. */
    function UpdateManualEntry(id: int, p: ManualEntryPatch): (r: Step)
      ensures r.outcome == Updated
      ensures r.db == this.(manualEntries := UpdateWhere(manualEntries, ManualEntryId, id, MergeManualEntry, p))
      ensures (forall x :: x in manualEntries ==> x.id != id) ==> r.db == this
    {
      UpdateAbsentIsNoop(manualEntries, ManualEntryId, id, MergeManualEntry, p);
      Step(this.(manualEntries := UpdateWhere(manualEntries, ManualEntryId, id, MergeManualEntry, p)), Updated)
    }

    /** Every record with id `id` removed; nothing refers to a manual entry, so this is never refused. */
    function DeleteManualEntry(id: int): (r: Step)
      ensures r.outcome == Deleted
      ensures r.db == this.(manualEntries := Remove(manualEntries, ManualEntryId, id))
    {
      Step(this.(manualEntries := Remove(manualEntries, ManualEntryId, id)), Deleted)
    }

    // ---- integrity ----

    /** Every foreign key resolves to a record of the collection it names. */
    predicate ForeignKeysValid()
    {
      && (forall d :: d in departments ==> Occurs(companies, CompanyId, d.companyId))
      && (forall g :: g in designations ==> Occurs(departments, DepartmentId, g.departmentId))
      && (forall e :: e in employees ==>
            && Occurs(departments, DepartmentId, e.departmentId)
            && Occurs(categories, CategoryId, e.categoryId)
            && Occurs(designations, DesignationId, e.designationId)
            && Occurs(shifts, ShiftId, e.shiftId))
      && (forall a :: a in leaveApplications ==>
            && Occurs(employees, EmployeeId, a.employeeId)
            && Occurs(leaveTypes, LeaveTypeId, a.leaveTypeId))
      && (forall m :: m in manualEntries ==> Occurs(employees, EmployeeId, m.employeeId))
      && (forall a :: a in attendances ==> Occurs(employees, EmployeeId, a.employeeId))
    }

    /** No two records of one collection share an id. */
    predicate IdsUnique()
    {
      && UniqueIds(companies, CompanyId)
      && UniqueIds(departments, DepartmentId)
      && UniqueIds(categories, CategoryId)
      && UniqueIds(designations, DesignationId)
      && UniqueIds(shifts, ShiftId)
      && UniqueIds(holidays, HolidayId)
      && UniqueIds(leaveTypes, LeaveTypeId)
      && UniqueIds(employees, EmployeeId)
      && UniqueIds(leaveApplications, LeaveApplicationId)
      && UniqueIds(manualEntries, ManualEntryId)
      && UniqueIds(attendances, AttendanceId)
    }
  }

  /** The write operations of the store, with their arguments. */
  datatype Op =
    | AddCompany(company: Company)
    | UpdateCompany(id: int, companyPatch: CompanyPatch)
    | DeleteCompany(id: int)
    | AddDepartment(department: Department)
    | UpdateDepartment(id: int, departmentPatch: DepartmentPatch)
    | DeleteDepartment(id: int)
    | AddCategory(category: Category)
    | UpdateCategory(id: int, categoryPatch: CategoryPatch)
    | DeleteCategory(id: int)
    | AddDesignation(designation: Designation)
    | UpdateDesignation(id: int, designationPatch: DesignationPatch)
    | DeleteDesignation(id: int)
    | AddShift(shift: Shift)
    | UpdateShift(id: int, shiftPatch: ShiftPatch)
    | DeleteShift(id: int)
    | AddHoliday(holiday: Holiday)
    | UpdateHoliday(id: int, holidayPatch: HolidayPatch)
    | DeleteHoliday(id: int)
    | AddLeaveType(leaveType: LeaveType)
    | UpdateLeaveType(id: int, leaveTypePatch: LeaveTypePatch)
    | DeleteLeaveType(id: int)
    | AddEmployee(employee: Employee)
    | UpdateEmployee(id: int, employeePatch: EmployeePatch)
    | DeleteEmployee(id: int)
    | AddLeaveApplication(leaveApplication: LeaveApplication, now: Date)
    | UpdateLeaveApplication(id: int, leaveApplicationPatch: LeaveApplicationPatch)
    | DeleteLeaveApplication(id: int)
    | ApproveLeaveApplication(id: int)
    | RejectLeaveApplication(id: int)
    | AddManualEntry(manualEntry: ManualEntry)
    | UpdateManualEntry(id: int, manualEntryPatch: ManualEntryPatch)
    | DeleteManualEntry(id: int)
  {
    /** A delete operation. */
    predicate IsDelete()
    {
      DeleteCompany? || DeleteDepartment? || DeleteCategory? || DeleteDesignation? || DeleteShift? || DeleteHoliday? || DeleteLeaveType? || DeleteEmployee? || DeleteLeaveApplication? || DeleteManualEntry?
    }
  }

  /** Dispatch of an operation to its transition. */
  function Apply(db: Db, op: Op): (r: Step)
    ensures r.outcome.Blocked? ==> op.IsDelete() && r.db == db
  {
    match op
    case AddCompany(x) => db.AddCompany(x)
    case UpdateCompany(id, p) => db.UpdateCompany(id, p)
    case DeleteCompany(id) => db.DeleteCompany(id)
    case AddDepartment(x) => db.AddDepartment(x)
    case UpdateDepartment(id, p) => db.UpdateDepartment(id, p)
    case DeleteDepartment(id) => db.DeleteDepartment(id)
    case AddCategory(x) => db.AddCategory(x)
    case UpdateCategory(id, p) => db.UpdateCategory(id, p)
    case DeleteCategory(id) => db.DeleteCategory(id)
    case AddDesignation(x) => db.AddDesignation(x)
    case UpdateDesignation(id, p) => db.UpdateDesignation(id, p)
    case DeleteDesignation(id) => db.DeleteDesignation(id)
    case AddShift(x) => db.AddShift(x)
    case UpdateShift(id, p) => db.UpdateShift(id, p)
    case DeleteShift(id) => db.DeleteShift(id)
    case AddHoliday(x) => db.AddHoliday(x)
    case UpdateHoliday(id, p) => db.UpdateHoliday(id, p)
    case DeleteHoliday(id) => db.DeleteHoliday(id)
    case AddLeaveType(x) => db.AddLeaveType(x)
    case UpdateLeaveType(id, p) => db.UpdateLeaveType(id, p)
    case DeleteLeaveType(id) => db.DeleteLeaveType(id)
    case AddEmployee(x) => db.AddEmployee(x)
    case UpdateEmployee(id, p) => db.UpdateEmployee(id, p)
    case DeleteEmployee(id) => db.DeleteEmployee(id)
    case AddLeaveApplication(x, now) => db.AddLeaveApplication(x, now)
    case UpdateLeaveApplication(id, p) => db.UpdateLeaveApplication(id, p)
    case DeleteLeaveApplication(id) => db.DeleteLeaveApplication(id)
    case ApproveLeaveApplication(id) => db.ApproveLeaveApplication(id)
    case RejectLeaveApplication(id) => db.RejectLeaveApplication(id)
    case AddManualEntry(x) => db.AddManualEntry(x)
    case UpdateManualEntry(id, p) => db.UpdateManualEntry(id, p)
    case DeleteManualEntry(id) => db.DeleteManualEntry(id)
  }
}
