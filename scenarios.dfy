/**
 * Walk-throughs of the store, stated for every starting state rather
 * than for the seeded sample data.
 */
module Scenarios {
  import opened Options
  import opened Entities
  import opened Collections
  import opened MasterData

  /**
   * A department added under a company blocks that company's deletion; the
   * department itself can be deleted at once, which restores the original
   * state, after which the company can be deleted if no other department
   * used it.
   */
  lemma CompanyDepartmentScenario(db: Db, d: Department)
    requires db.ForeignKeysValid()
    requires forall x :: x in db.departments ==> x.companyId != d.companyId
    ensures var s1 := db.AddDepartment(d);
            var s2 := s1.db.DeleteCompany(d.companyId);
            var s3 := s1.db.DeleteDepartment(s1.outcome.id);
            && s2.outcome == Blocked && s2.db == s1.db
            && s3.outcome == Deleted && s3.db == db
            && s3.db.DeleteCompany(d.companyId).outcome == Deleted
  {
    var s1 := db.AddDepartment(d);
    var n := s1.outcome.id;
    var added := d.(id := n);
    assert s1.db.departments == db.departments + [added];
    assert added in s1.db.departments && added.companyId == d.companyId;
    assert s1.db.DeleteCompany(d.companyId).outcome == Blocked;
    forall g | g in s1.db.designations ensures g.departmentId != n {
      var x :| x in db.departments && DepartmentId(x) == g.departmentId;
    }
    forall e | e in s1.db.employees ensures e.departmentId != n {
      var x :| x in db.departments && DepartmentId(x) == e.departmentId;
    }
    var s3 := s1.db.DeleteDepartment(n);
    assert s3.outcome == Deleted;
    RemoveAppendedFresh(db.departments, DepartmentId, added);
    assert s3.db == db;
  }

  /** An employee blocks the deletion of each of the four masters it refers to. */
  lemma EmployeeBlocksItsMasters(db: Db, e: Employee)
    ensures var s := db.AddEmployee(e).db;
            && s.DeleteDepartment(e.departmentId).outcome == Blocked
            && s.DeleteCategory(e.categoryId).outcome == Blocked
            && s.DeleteDesignation(e.designationId).outcome == Blocked
            && s.DeleteShift(e.shiftId).outcome == Blocked
  {
    var r := db.AddEmployee(e);
    assert e.(id := r.outcome.id) in r.db.employees;
  }

  /**
   * A new application is Pending with `appliedOn` the current time; approval
   * and then rejection each take effect regardless of the status before.
   */
  lemma LeaveApplicationScenario(db: Db, a: LeaveApplication, now: Date)
    ensures var s1 := db.AddLeaveApplication(a, now);
            var n := s1.outcome.id;
            var s2 := s1.db.ApproveLeaveApplication(n);
            var s3 := s2.db.RejectLeaveApplication(n);
            var created := a.(id := n, status := Pending, appliedOn := now);
            && Find(s1.db.leaveApplications, LeaveApplicationId, n) == Some(created)
            && Find(s2.db.leaveApplications, LeaveApplicationId, n) == Some(created.(status := Approved))
            && Find(s3.db.leaveApplications, LeaveApplicationId, n) == Some(created.(status := Rejected))
  {
    var s1 := db.AddLeaveApplication(a, now);
    var n := s1.outcome.id;
    var las1 := s1.db.leaveApplications;
    var las2 := UpdateWhere(las1, LeaveApplicationId, n, WithStatus, Approved);
    FindAfterUpdate(las1, LeaveApplicationId, n, WithStatus, Approved);
    FindAfterUpdate(las2, LeaveApplicationId, n, WithStatus, Rejected);
    assert s1.db.ApproveLeaveApplication(n).db.leaveApplications == las2;
  }

  /** Approval and rejection are unguarded: whichever comes last decides the status. */
  lemma LastDecisionWins(db: Db, id: int)
    ensures db.ApproveLeaveApplication(id).db.RejectLeaveApplication(id).db == db.RejectLeaveApplication(id).db
    ensures db.RejectLeaveApplication(id).db.ApproveLeaveApplication(id).db == db.ApproveLeaveApplication(id).db
  {
    var las := db.leaveApplications;
    UpdateOverridden(las, LeaveApplicationId, id, WithStatus, Approved, Rejected);
    UpdateOverridden(las, LeaveApplicationId, id, WithStatus, Rejected, Approved);
    assert db.ApproveLeaveApplication(id).db.leaveApplications
      == UpdateWhere(las, LeaveApplicationId, id, WithStatus, Approved);
    assert db.RejectLeaveApplication(id).db.leaveApplications
      == UpdateWhere(las, LeaveApplicationId, id, WithStatus, Rejected);
  }

  /**
   * Ids are reused: deleting the newest company and adding another hands out
   * the deleted company's id again.
   */
  lemma DeletedIdIsReused(db: Db, c: Company, x: Company)
    requires db.ForeignKeysValid()
    ensures var s1 := db.AddCompany(c);
            var s2 := s1.db.DeleteCompany(s1.outcome.id);
            && s2.outcome == Deleted && s2.db == db
            && s2.db.AddCompany(x).outcome == s1.outcome
  {
    var s1 := db.AddCompany(c);
    var n := s1.outcome.id;
    forall d | d in db.departments ensures d.companyId != n {
      var y :| y in db.companies && CompanyId(y) == d.companyId;
    }
    RemoveAppendedFresh(db.companies, CompanyId, c.(id := n));
  }
}
