/**
 * What the store's operations guarantee across collections: deletes never
 * leave a dangling foreign key, operations that keep ids keep them unique,
 * and an update that rewrites an id can duplicate it.
 */
module Integrity {
  import opened Options
  import opened Entities
  import opened Collections
  import opened MasterData

  // ---------------------------------------------------------------------
  // Deletes keep every foreign key resolvable
  // ---------------------------------------------------------------------

  lemma DeleteCompanyKeepsForeignKeys(db: Db, id: int)
    requires db.ForeignKeysValid()
    ensures db.DeleteCompany(id).db.ForeignKeysValid()
  {
    var r := db.DeleteCompany(id);
    if !r.outcome.Blocked? {
      forall d | d in db.departments ensures Occurs(r.db.companies, CompanyId, d.companyId) {
        RemoveKeepsOtherIds(db.companies, CompanyId, id, d.companyId);
      }
    }
  }

  lemma DeleteDepartmentKeepsForeignKeys(db: Db, id: int)
    requires db.ForeignKeysValid()
    ensures db.DeleteDepartment(id).db.ForeignKeysValid()
  {
    var r := db.DeleteDepartment(id);
    if !r.outcome.Blocked? {
      forall g | g in db.designations ensures Occurs(r.db.departments, DepartmentId, g.departmentId) {
        RemoveKeepsOtherIds(db.departments, DepartmentId, id, g.departmentId);
      }
      forall e | e in db.employees ensures Occurs(r.db.departments, DepartmentId, e.departmentId) {
        RemoveKeepsOtherIds(db.departments, DepartmentId, id, e.departmentId);
      }
    }
  }

  lemma DeleteCategoryKeepsForeignKeys(db: Db, id: int)
    requires db.ForeignKeysValid()
    ensures db.DeleteCategory(id).db.ForeignKeysValid()
  {
    var r := db.DeleteCategory(id);
    if !r.outcome.Blocked? {
      forall e | e in db.employees ensures Occurs(r.db.categories, CategoryId, e.categoryId) {
        RemoveKeepsOtherIds(db.categories, CategoryId, id, e.categoryId);
      }
    }
  }

  lemma DeleteDesignationKeepsForeignKeys(db: Db, id: int)
    requires db.ForeignKeysValid()
    ensures db.DeleteDesignation(id).db.ForeignKeysValid()
  {
    var r := db.DeleteDesignation(id);
    if !r.outcome.Blocked? {
      forall e | e in db.employees ensures Occurs(r.db.designations, DesignationId, e.designationId) {
        RemoveKeepsOtherIds(db.designations, DesignationId, id, e.designationId);
      }
    }
  }

  lemma DeleteShiftKeepsForeignKeys(db: Db, id: int)
    requires db.ForeignKeysValid()
    ensures db.DeleteShift(id).db.ForeignKeysValid()
  {
    var r := db.DeleteShift(id);
    if !r.outcome.Blocked? {
      forall e | e in db.employees ensures Occurs(r.db.shifts, ShiftId, e.shiftId) {
        RemoveKeepsOtherIds(db.shifts, ShiftId, id, e.shiftId);
      }
    }
  }

  lemma DeleteHolidayKeepsForeignKeys(db: Db, id: int)
    requires db.ForeignKeysValid()
    ensures db.DeleteHoliday(id).db.ForeignKeysValid()
  {
  }

  lemma DeleteLeaveTypeKeepsForeignKeys(db: Db, id: int)
    requires db.ForeignKeysValid()
    ensures db.DeleteLeaveType(id).db.ForeignKeysValid()
  {
    var r := db.DeleteLeaveType(id);
    if !r.outcome.Blocked? {
      forall a | a in db.leaveApplications ensures Occurs(r.db.leaveTypes, LeaveTypeId, a.leaveTypeId) {
        RemoveKeepsOtherIds(db.leaveTypes, LeaveTypeId, id, a.leaveTypeId);
      }
    }
  }

  lemma DeleteEmployeeKeepsForeignKeys(db: Db, id: int)
    requires db.ForeignKeysValid()
    ensures db.DeleteEmployee(id).db.ForeignKeysValid()
  {
    var r := db.DeleteEmployee(id);
    if !r.outcome.Blocked? {
      forall a | a in db.leaveApplications ensures Occurs(r.db.employees, EmployeeId, a.employeeId) {
        RemoveKeepsOtherIds(db.employees, EmployeeId, id, a.employeeId);
      }
      forall m | m in db.manualEntries ensures Occurs(r.db.employees, EmployeeId, m.employeeId) {
        RemoveKeepsOtherIds(db.employees, EmployeeId, id, m.employeeId);
      }
      forall a | a in db.attendances ensures Occurs(r.db.employees, EmployeeId, a.employeeId) {
        RemoveKeepsOtherIds(db.employees, EmployeeId, id, a.employeeId);
      }
    }
  }

  lemma DeleteLeaveApplicationKeepsForeignKeys(db: Db, id: int)
    requires db.ForeignKeysValid()
    ensures db.DeleteLeaveApplication(id).db.ForeignKeysValid()
  {
  }

  lemma DeleteManualEntryKeepsForeignKeys(db: Db, id: int)
    requires db.ForeignKeysValid()
    ensures db.DeleteManualEntry(id).db.ForeignKeysValid()
  {
  }

  /** Approval and rejection touch only the status, so foreign keys stay valid. */
  lemma StatusChangesKeepForeignKeys(db: Db, id: int)
    requires db.ForeignKeysValid()
    ensures db.ApproveLeaveApplication(id).db.ForeignKeysValid()
    ensures db.RejectLeaveApplication(id).db.ForeignKeysValid()
  {
    forall s: LeaveStatus ensures
      db.(leaveApplications := UpdateWhere(db.leaveApplications, LeaveApplicationId, id, WithStatus, s)).ForeignKeysValid()
    {
      var las := UpdateWhere(db.leaveApplications, LeaveApplicationId, id, WithStatus, s);
      forall a | a in las
        ensures Occurs(db.employees, EmployeeId, a.employeeId)
        ensures Occurs(db.leaveTypes, LeaveTypeId, a.leaveTypeId)
      {
        var i :| 0 <= i < |las| && las[i] == a;
        assert db.leaveApplications[i] in db.leaveApplications;
      }
    }
    assert db.ApproveLeaveApplication(id).db
      == db.(leaveApplications := UpdateWhere(db.leaveApplications, LeaveApplicationId, id, WithStatus, Approved));
    assert db.RejectLeaveApplication(id).db
      == db.(leaveApplications := UpdateWhere(db.leaveApplications, LeaveApplicationId, id, WithStatus, Rejected));
  }

  /** Adds do not check foreign keys: a department naming a missing company breaks the invariant. */
  lemma AddDoesNotCheckForeignKeys(db: Db, d: Department)
    requires forall c :: c in db.companies ==> c.id != d.companyId
    ensures !db.AddDepartment(d).db.ForeignKeysValid()
  {
    var r := db.AddDepartment(d);
    var added := d.(id := r.outcome.id);
    assert added in r.db.departments;
    assert !Occurs(r.db.companies, CompanyId, added.companyId);
  }

  // ---------------------------------------------------------------------
  // Ids stay unique under every operation that does not rewrite an id
  // ---------------------------------------------------------------------

  lemma StatusChangesKeepIdsUnique(db: Db, id: int)
    requires db.IdsUnique()
    ensures db.ApproveLeaveApplication(id).db.IdsUnique()
    ensures db.RejectLeaveApplication(id).db.IdsUnique()
  {
    UpdateKeepsUnique(db.leaveApplications, LeaveApplicationId, id, WithStatus, Approved);
    UpdateKeepsUnique(db.leaveApplications, LeaveApplicationId, id, WithStatus, Rejected);
  }

  /**
   * `Partial<T>` includes `id`, so an update can give a record the id of
   * another record: updating c2 with a partial that carries c1's id leaves two
   * companies with one id.
   */
  lemma UpdateCanDuplicateIds(db: Db, c1: Company, c2: Company, p: CompanyPatch)
    requires c1 in db.companies && c2 in db.companies && c1.id != c2.id
    requires p.id == Some(c1.id)
    ensures !db.UpdateCompany(c2.id, p).db.IdsUnique()
  {
    var cs := db.UpdateCompany(c2.id, p).db.companies;
    var i :| 0 <= i < |db.companies| && db.companies[i] == c1;
    var j :| 0 <= j < |db.companies| && db.companies[j] == c2;
    assert cs[i] == c1 && CompanyId(cs[j]) == c1.id && i != j;
  }

  /** Adding and deleting company records, and updating one with a partial that keeps its id, keep ids unique. */
  lemma CompanyOpsKeepIdsUnique(db: Db, c: Company, id: int, p: CompanyPatch)
    requires db.IdsUnique()
    ensures db.AddCompany(c).db.IdsUnique()
    ensures db.DeleteCompany(id).db.IdsUnique()
    ensures p.id.None? || p.id.value == id ==> db.UpdateCompany(id, p).db.IdsUnique()
  {
    var n := NextId(db.companies, CompanyId);
    AppendNextIdKeepsUnique(db.companies, CompanyId, c.(id := n));
    RemoveKeepsUnique(db.companies, CompanyId, id);
    if p.id.None? || p.id.value == id {
      UpdateKeepsUnique(db.companies, CompanyId, id, MergeCompany, p);
    }
  }

  /** Adding and deleting department records, and updating one with a partial that keeps its id, keep ids unique. */
  lemma DepartmentOpsKeepIdsUnique(db: Db, d: Department, id: int, p: DepartmentPatch)
    requires db.IdsUnique()
    ensures db.AddDepartment(d).db.IdsUnique()
    ensures db.DeleteDepartment(id).db.IdsUnique()
    ensures p.id.None? || p.id.value == id ==> db.UpdateDepartment(id, p).db.IdsUnique()
  {
    var n := NextId(db.departments, DepartmentId);
    AppendNextIdKeepsUnique(db.departments, DepartmentId, d.(id := n));
    RemoveKeepsUnique(db.departments, DepartmentId, id);
    if p.id.None? || p.id.value == id {
      UpdateKeepsUnique(db.departments, DepartmentId, id, MergeDepartment, p);
    }
  }

  /** Adding and deleting category records, and updating one with a partial that keeps its id, keep ids unique. */
  lemma CategoryOpsKeepIdsUnique(db: Db, c: Category, id: int, p: CategoryPatch)
    requires db.IdsUnique()
    ensures db.AddCategory(c).db.IdsUnique()
    ensures db.DeleteCategory(id).db.IdsUnique()
    ensures p.id.None? || p.id.value == id ==> db.UpdateCategory(id, p).db.IdsUnique()
  {
    var n := NextId(db.categories, CategoryId);
    AppendNextIdKeepsUnique(db.categories, CategoryId, c.(id := n));
    RemoveKeepsUnique(db.categories, CategoryId, id);
    if p.id.None? || p.id.value == id {
      UpdateKeepsUnique(db.categories, CategoryId, id, MergeCategory, p);
    }
  }

  /** Adding and deleting designation records, and updating one with a partial that keeps its id, keep ids unique. */
  lemma DesignationOpsKeepIdsUnique(db: Db, g: Designation, id: int, p: DesignationPatch)
    requires db.IdsUnique()
    ensures db.AddDesignation(g).db.IdsUnique()
    ensures db.DeleteDesignation(id).db.IdsUnique()
    ensures p.id.None? || p.id.value == id ==> db.UpdateDesignation(id, p).db.IdsUnique()
  {
    var n := NextId(db.designations, DesignationId);
    AppendNextIdKeepsUnique(db.designations, DesignationId, g.(id := n));
    RemoveKeepsUnique(db.designations, DesignationId, id);
    if p.id.None? || p.id.value == id {
      UpdateKeepsUnique(db.designations, DesignationId, id, MergeDesignation, p);
    }
  }

  /** Adding and deleting shift records, and updating one with a partial that keeps its id, keep ids unique. */
  lemma ShiftOpsKeepIdsUnique(db: Db, s: Shift, id: int, p: ShiftPatch)
    requires db.IdsUnique()
    ensures db.AddShift(s).db.IdsUnique()
    ensures db.DeleteShift(id).db.IdsUnique()
    ensures p.id.None? || p.id.value == id ==> db.UpdateShift(id, p).db.IdsUnique()
  {
    var n := NextId(db.shifts, ShiftId);
    AppendNextIdKeepsUnique(db.shifts, ShiftId, s.(id := n));
    RemoveKeepsUnique(db.shifts, ShiftId, id);
    if p.id.None? || p.id.value == id {
      UpdateKeepsUnique(db.shifts, ShiftId, id, MergeShift, p);
    }
  }

  /** Adding and deleting holiday records, and updating one with a partial that keeps its id, keep ids unique. */
  lemma HolidayOpsKeepIdsUnique(db: Db, h: Holiday, id: int, p: HolidayPatch)
    requires db.IdsUnique()
    ensures db.AddHoliday(h).db.IdsUnique()
    ensures db.DeleteHoliday(id).db.IdsUnique()
    ensures p.id.None? || p.id.value == id ==> db.UpdateHoliday(id, p).db.IdsUnique()
  {
    var n := NextId(db.holidays, HolidayId);
    AppendNextIdKeepsUnique(db.holidays, HolidayId, h.(id := n));
    RemoveKeepsUnique(db.holidays, HolidayId, id);
    if p.id.None? || p.id.value == id {
      UpdateKeepsUnique(db.holidays, HolidayId, id, MergeHoliday, p);
    }
  }

  /** Adding and deleting leave type records, and updating one with a partial that keeps its id, keep ids unique. */
  lemma LeaveTypeOpsKeepIdsUnique(db: Db, t: LeaveType, id: int, p: LeaveTypePatch)
    requires db.IdsUnique()
    ensures db.AddLeaveType(t).db.IdsUnique()
    ensures db.DeleteLeaveType(id).db.IdsUnique()
    ensures p.id.None? || p.id.value == id ==> db.UpdateLeaveType(id, p).db.IdsUnique()
  {
    var n := NextId(db.leaveTypes, LeaveTypeId);
    AppendNextIdKeepsUnique(db.leaveTypes, LeaveTypeId, t.(id := n));
    RemoveKeepsUnique(db.leaveTypes, LeaveTypeId, id);
    if p.id.None? || p.id.value == id {
      UpdateKeepsUnique(db.leaveTypes, LeaveTypeId, id, MergeLeaveType, p);
    }
  }

  /** Adding and deleting employee records, and updating one with a partial that keeps its id, keep ids unique. */
  lemma EmployeeOpsKeepIdsUnique(db: Db, e: Employee, id: int, p: EmployeePatch)
    requires db.IdsUnique()
    ensures db.AddEmployee(e).db.IdsUnique()
    ensures db.DeleteEmployee(id).db.IdsUnique()
    ensures p.id.None? || p.id.value == id ==> db.UpdateEmployee(id, p).db.IdsUnique()
  {
    var n := NextId(db.employees, EmployeeId);
    AppendNextIdKeepsUnique(db.employees, EmployeeId, e.(id := n));
    RemoveKeepsUnique(db.employees, EmployeeId, id);
    if p.id.None? || p.id.value == id {
      UpdateKeepsUnique(db.employees, EmployeeId, id, MergeEmployee, p);
    }
  }

  /** Adding and deleting leave application records, and updating one with a partial that keeps its id, keep ids unique. */
  lemma LeaveApplicationOpsKeepIdsUnique(db: Db, a: LeaveApplication, now: Date, id: int, p: LeaveApplicationPatch)
    requires db.IdsUnique()
    ensures db.AddLeaveApplication(a, now).db.IdsUnique()
    ensures db.DeleteLeaveApplication(id).db.IdsUnique()
    ensures p.id.None? || p.id.value == id ==> db.UpdateLeaveApplication(id, p).db.IdsUnique()
  {
    var n := NextId(db.leaveApplications, LeaveApplicationId);
    AppendNextIdKeepsUnique(db.leaveApplications, LeaveApplicationId, a.(id := n, status := Pending, appliedOn := now));
    RemoveKeepsUnique(db.leaveApplications, LeaveApplicationId, id);
    if p.id.None? || p.id.value == id {
      UpdateKeepsUnique(db.leaveApplications, LeaveApplicationId, id, MergeLeaveApplication, p);
    }
  }

  /** Adding and deleting manual entry records, and updating one with a partial that keeps its id, keep ids unique. */
  lemma ManualEntryOpsKeepIdsUnique(db: Db, m: ManualEntry, id: int, p: ManualEntryPatch)
    requires db.IdsUnique()
    ensures db.AddManualEntry(m).db.IdsUnique()
    ensures db.DeleteManualEntry(id).db.IdsUnique()
    ensures p.id.None? || p.id.value == id ==> db.UpdateManualEntry(id, p).db.IdsUnique()
  {
    var n := NextId(db.manualEntries, ManualEntryId);
    AppendNextIdKeepsUnique(db.manualEntries, ManualEntryId, m.(id := n));
    RemoveKeepsUnique(db.manualEntries, ManualEntryId, id);
    if p.id.None? || p.id.value == id {
      UpdateKeepsUnique(db.manualEntries, ManualEntryId, id, MergeManualEntry, p);
    }
  }

}
