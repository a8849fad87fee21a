# HRMS master-data store in Dafny

This project models the master-data store of a browser-based HR management
system, `HRMSProvider` in `context/hrms-context.tsx`. The store holds eleven
record collections: companies, departments, categories, designations,
shifts, holidays, leave types, employees, leave applications, manual entries
and attendances. Over them it offers these operations:

- `add*` appends a record under the next id, which is the largest id plus one, or 1 for an empty collection.
- `update*` shallow-merges a partial record into the records with the given id.
- `delete*` removes a record only when no dependent record refers to it.
- approval and rejection overwrite a leave application's status.
- `get*ById` finds the first record with an id.

The modules follow the layers of the store:

- `Entities`: one datatype per record type and one per partial record (`Partial<T>`). It also holds the shallow merges and the accessors for own ids and foreign keys.
- `Collections`: the array operations the store is built from, generic in the record type. These are `getNextId` (`NextId`), `some` (`Occurs`), `filter` (`Remove`), `map` with a spread (`UpdateWhere`) and `find` (`Find`), with their properties.
- `MasterData`: the store as a value `Db`. Each operation is a transition function that returns the new collections and an `Outcome`. `Added(id)`, `Updated`, `Deleted` and `Blocked` stand for the toast notification the source shows. `Op`/`Apply` list the store's write operations.
- `Integrity`: deletes never leave a dangling foreign key, and operations that keep ids keep them unique.
- `Scenarios`: walk-throughs of the store, stated for every starting state.
- `Provider`: the class `Hrms`, with one `seq` field per collection. Each method assigns a new sequence to its field and returns the outcome. Its contract says that the new state and the outcome are those of the `Db` transition of the same name.

Modelling choices:

- An `add*` receives a whole record and replaces its `id`. This is what `{ ...record, id: getNextId(...) }` does with whatever the argument carries.
- For leave applications, the add also sets `status` to Pending and `appliedOn` to the current time. The current time (`new Date()`) is a parameter.
- A partial record has one `Option` per property, `id` included, because `Partial<T>` includes it. For an optional property, `Some(None)` is the key present with the value `undefined`, which the spread copies.
- Ids are `int`. Every other JavaScript `number` is a `real`. A `Date` is an `int` count of milliseconds.

Two consequences of the code are worth stating:

- Ids are reused. The code recomputes the largest id plus one on every add, so deleting the newest record and adding another hands out its id again (`Scenarios.DeletedIdIsReused`).
- Because `Partial<T>` includes `id`, an update can move a record to an id another record already has. So uniqueness of ids is proved only for updates whose partial carries no id or the same id (`Integrity.CompanyOpsKeepIdsUnique` and the other nine `*OpsKeepIdsUnique` lemmas); `Integrity.UpdateCanDuplicateIds` shows the duplicate.

## Model

| member | source | states |
|---|---|---|
| `Entities.Override` | context/hrms-context.tsx:787-795 | one key of a spread `{ ...record, ...partial }`: a key the partial carries takes the partial's value, an absent key keeps the record's value |
| `Entities.MergeCompany` | context/hrms-context.tsx:791 | for every property of the company record, `id` included (`Partial` includes it): a property the partial carries takes the partial's value and a property it lacks keeps the record's value |
| `Entities.MergeDepartment` | context/hrms-context.tsx:836 | for every property of the department record, `id` included (`Partial` includes it): a property the partial carries takes the partial's value and a property it lacks keeps the record's value |
| `Entities.MergeCategory` | context/hrms-context.tsx:883 | for every property of the category record, `id` included (`Partial` includes it): a property the partial carries takes the partial's value and a property it lacks keeps the record's value |
| `Entities.MergeDesignation` | context/hrms-context.tsx:928 | for every property of the designation record, `id` included (`Partial` includes it): a property the partial carries takes the partial's value and a property it lacks keeps the record's value |
| `Entities.MergeShift` | context/hrms-context.tsx:973 | for every property of the shift record, `id` included (`Partial` includes it): a property the partial carries takes the partial's value and a property it lacks keeps the record's value |
| `Entities.MergeHoliday` | context/hrms-context.tsx:1018 | for every property of the holiday record, `id` included (`Partial` includes it): a property the partial carries takes the partial's value and a property it lacks keeps the record's value |
| `Entities.MergeLeaveType` | context/hrms-context.tsx:1052 | for every property of the leave type record, `id` included (`Partial` includes it): a property the partial carries takes the partial's value and a property it lacks keeps the record's value |
| `Entities.MergeEmployee` | context/hrms-context.tsx:1097 | for every property of the employee record, `id` included (`Partial` includes it): a property the partial carries takes the partial's value and a property it lacks keeps the record's value |
| `Entities.MergeLeaveApplication` | context/hrms-context.tsx:1150 | for every property of the leave application record, `id` included (`Partial` includes it): a property the partial carries takes the partial's value and a property it lacks keeps the record's value |
| `Entities.MergeManualEntry` | context/hrms-context.tsx:1213 | for every property of the manual entry record, `id` included (`Partial` includes it): a property the partial carries takes the partial's value and a property it lacks keeps the record's value |
| `Entities.WithStatus` | context/hrms-context.tsx:1173 | `{ ...la, status }` sets the status to the given value and leaves every other field of the application as it was |
| `Collections.Occurs` | context/hrms-context.tsx:804 | `some`: true exactly when some element's field equals the value |
| `Collections.MaxKey` | context/hrms-context.tsx:774 | `Math.max` over the ids of a non-empty collection: no id exceeds it and some id equals it |
| `Collections.NextId` | context/hrms-context.tsx:773-775 | 1 for an empty collection; otherwise an existing id plus one that is strictly greater than every id present |
| `Collections.Remove` | context/hrms-context.tsx:815 | `filter`: keeps exactly the records whose id differs from the target, never grows, and is the identity when no record has the target id |
| `Collections.UpdateWhere` | context/hrms-context.tsx:789-794 | `map` with a spread: same length; record i becomes the merge of record i with the partial when its id matches and stays as it was otherwise |
| `Collections.Find` | context/hrms-context.tsx:1233-1239 | `find`: none exactly when no record has the id; otherwise the record at the first index holding that id |
| `Collections.FindAppendedFresh` | context/hrms-context.tsx:778-780 | a record appended with an id no earlier record has is what a lookup of that id returns |
| `Collections.AppendNextIdKeepsUnique` | context/hrms-context.tsx:778-780 | appending a record whose id is the next id keeps ids unique |
| `Collections.RemoveSingle` | context/hrms-context.tsx:815 | `filter` on one record keeps it exactly when its id differs from the target |
| `Collections.RemoveConcat` | context/hrms-context.tsx:815 | `filter` distributes over concatenation; with the one-record case this makes it an order-preserving filter, so surviving records keep their order and multiplicity |
| `Collections.RemoveKeepsUnique` | context/hrms-context.tsx:815 | filtering keeps ids unique |
| `Collections.RemoveKeepsOtherIds` | context/hrms-context.tsx:802-815 | after removing one id, every other id is present exactly when it was present before |
| `Collections.UpdateKeepsUnique` | context/hrms-context.tsx:787-795 | an update whose merge keeps the matched id keeps ids unique |
| `Collections.UpdateAbsentIsNoop` | context/hrms-context.tsx:787-795 | updating an id that no record has returns the collection unchanged |
| `Collections.UpdateOverridden` | context/hrms-context.tsx:1169-1197 | updating with p then with q equals updating with q alone when q overrides all that p wrote and p keeps the id |
| `Collections.FindAfterUpdate` | context/hrms-context.tsx:787-795 | after an update that keeps the matched id, a lookup of that id returns the merge of the record it returned before (none stays none) |
| `Collections.FindUnique` | context/hrms-context.tsx:1233-1239 | when ids are unique, looking up a record's id returns that record |
| `Collections.RemoveAppendedFresh` | context/hrms-context.tsx:815 | deleting the id of a freshly appended record gives back the collection as it was before the append |
| `MasterData.Db.AddCompany` | context/hrms-context.tsx:778-785 | outcome Added(n); the company collection gains exactly one record at the end, the argument with id n; n is 1 on an empty collection, otherwise an existing id plus one and above every id; the lookup of n returns the new record; no other collection changes |
| `MasterData.Db.UpdateCompany` | context/hrms-context.tsx:787-800 | outcome Updated whether or not the id exists; only the company collection changes, to the merge-by-id of the partial; an id no record has leaves the whole state unchanged |
| `MasterData.Db.DeleteCompany` | context/hrms-context.tsx:802-820 | Blocked exactly when there is an entry of `departments` whose `companyId` is the id; a blocked delete leaves every collection unchanged; otherwise outcome Deleted and only the company collection changes, to the records without that id |
| `MasterData.Db.AddDepartment` | context/hrms-context.tsx:823-830 | outcome Added(n); the department collection gains exactly one record at the end, the argument with id n; n is 1 on an empty collection, otherwise an existing id plus one and above every id; the lookup of n returns the new record; no other collection changes |
| `MasterData.Db.UpdateDepartment` | context/hrms-context.tsx:832-845 | outcome Updated whether or not the id exists; only the department collection changes, to the merge-by-id of the partial; an id no record has leaves the whole state unchanged |
| `MasterData.Db.DeleteDepartment` | context/hrms-context.tsx:847-867 | Blocked exactly when there is an entry of `designations` whose `departmentId` is the id or an entry of `employees` whose `departmentId` is the id; a blocked delete leaves every collection unchanged; otherwise outcome Deleted and only the department collection changes, to the records without that id |
| `MasterData.Db.AddCategory` | context/hrms-context.tsx:870-877 | outcome Added(n); the category collection gains exactly one record at the end, the argument with id n; n is 1 on an empty collection, otherwise an existing id plus one and above every id; the lookup of n returns the new record; no other collection changes |
| `MasterData.Db.UpdateCategory` | context/hrms-context.tsx:879-892 | outcome Updated whether or not the id exists; only the category collection changes, to the merge-by-id of the partial; an id no record has leaves the whole state unchanged |
| `MasterData.Db.DeleteCategory` | context/hrms-context.tsx:894-912 | Blocked exactly when there is an entry of `employees` whose `categoryId` is the id; a blocked delete leaves every collection unchanged; otherwise outcome Deleted and only the category collection changes, to the records without that id |
| `MasterData.Db.AddDesignation` | context/hrms-context.tsx:915-922 | outcome Added(n); the designation collection gains exactly one record at the end, the argument with id n; n is 1 on an empty collection, otherwise an existing id plus one and above every id; the lookup of n returns the new record; no other collection changes |
| `MasterData.Db.UpdateDesignation` | context/hrms-context.tsx:924-937 | outcome Updated whether or not the id exists; only the designation collection changes, to the merge-by-id of the partial; an id no record has leaves the whole state unchanged |
| `MasterData.Db.DeleteDesignation` | context/hrms-context.tsx:939-957 | Blocked exactly when there is an entry of `employees` whose `designationId` is the id; a blocked delete leaves every collection unchanged; otherwise outcome Deleted and only the designation collection changes, to the records without that id |
| `MasterData.Db.AddShift` | context/hrms-context.tsx:960-967 | outcome Added(n); the shift collection gains exactly one record at the end, the argument with id n; n is 1 on an empty collection, otherwise an existing id plus one and above every id; the lookup of n returns the new record; no other collection changes |
| `MasterData.Db.UpdateShift` | context/hrms-context.tsx:969-982 | outcome Updated whether or not the id exists; only the shift collection changes, to the merge-by-id of the partial; an id no record has leaves the whole state unchanged |
| `MasterData.Db.DeleteShift` | context/hrms-context.tsx:984-1002 | Blocked exactly when there is an entry of `employees` whose `shiftId` is the id; a blocked delete leaves every collection unchanged; otherwise outcome Deleted and only the shift collection changes, to the records without that id |
| `MasterData.Db.AddHoliday` | context/hrms-context.tsx:1005-1012 | outcome Added(n); the holiday collection gains exactly one record at the end, the argument with id n; n is 1 on an empty collection, otherwise an existing id plus one and above every id; the lookup of n returns the new record; no other collection changes |
| `MasterData.Db.UpdateHoliday` | context/hrms-context.tsx:1014-1027 | outcome Updated whether or not the id exists; only the holiday collection changes, to the merge-by-id of the partial; an id no record has leaves the whole state unchanged |
| `MasterData.Db.DeleteHoliday` | context/hrms-context.tsx:1029-1036 | never refused: outcome Deleted and only the holiday collection changes, to the records without that id |
| `MasterData.Db.AddLeaveType` | context/hrms-context.tsx:1039-1046 | outcome Added(n); the leave type collection gains exactly one record at the end, the argument with id n; n is 1 on an empty collection, otherwise an existing id plus one and above every id; the lookup of n returns the new record; no other collection changes |
| `MasterData.Db.UpdateLeaveType` | context/hrms-context.tsx:1048-1061 | outcome Updated whether or not the id exists; only the leave type collection changes, to the merge-by-id of the partial; an id no record has leaves the whole state unchanged |
| `MasterData.Db.DeleteLeaveType` | context/hrms-context.tsx:1063-1081 | Blocked exactly when there is an entry of `leaveApplications` whose `leaveTypeId` is the id; a blocked delete leaves every collection unchanged; otherwise outcome Deleted and only the leave type collection changes, to the records without that id |
| `MasterData.Db.AddEmployee` | context/hrms-context.tsx:1084-1091 | outcome Added(n); the employee collection gains exactly one record at the end, the argument with id n; n is 1 on an empty collection, otherwise an existing id plus one and above every id; the lookup of n returns the new record; no other collection changes |
| `MasterData.Db.UpdateEmployee` | context/hrms-context.tsx:1093-1106 | outcome Updated whether or not the id exists; only the employee collection changes, to the merge-by-id of the partial; an id no record has leaves the whole state unchanged |
| `MasterData.Db.DeleteEmployee` | context/hrms-context.tsx:1108-1129 | Blocked exactly when there is an entry of `leaveApplications` whose `employeeId` is the id or an entry of `manualEntries` whose `employeeId` is the id or an entry of `attendances` whose `employeeId` is the id; a blocked delete leaves every collection unchanged; otherwise outcome Deleted and only the employee collection changes, to the records without that id |
| `MasterData.Db.AddLeaveApplication` | context/hrms-context.tsx:1132-1144 | outcome Added(n); the collection gains exactly one record at the end, the argument with id n, status Pending and `appliedOn` the given current time; n is 1 on an empty collection, otherwise an existing id plus one and above every id; the lookup of n returns the new record; no other collection changes |
| `MasterData.Db.UpdateLeaveApplication` | context/hrms-context.tsx:1146-1159 | outcome Updated whether or not the id exists; only the leave application collection changes, to the merge-by-id of the partial; an id no record has leaves the whole state unchanged |
| `MasterData.Db.DeleteLeaveApplication` | context/hrms-context.tsx:1161-1167 | never refused: outcome Deleted and only the leave application collection changes, to the records without that id |
| `MasterData.Db.ApproveLeaveApplication` | context/hrms-context.tsx:1169-1182 | outcome Updated; same number of applications; each one with the id gets status Approved whatever its previous status, with all other fields equal; every other application and every other collection is unchanged |
| `MasterData.Db.RejectLeaveApplication` | context/hrms-context.tsx:1184-1197 | outcome Updated; same number of applications; each one with the id gets status Rejected whatever its previous status, with all other fields equal; every other application and every other collection is unchanged |
| `MasterData.Db.AddManualEntry` | context/hrms-context.tsx:1200-1207 | outcome Added(n); the manual entry collection gains exactly one record at the end, the argument with id n; n is 1 on an empty collection, otherwise an existing id plus one and above every id; the lookup of n returns the new record; no other collection changes |
| `MasterData.Db.UpdateManualEntry` | context/hrms-context.tsx:1209-1222 | outcome Updated whether or not the id exists; only the manual entry collection changes, to the merge-by-id of the partial; an id no record has leaves the whole state unchanged |
| `MasterData.Db.DeleteManualEntry` | context/hrms-context.tsx:1224-1230 | never refused: outcome Deleted and only the manual entry collection changes, to the records without that id |
| `MasterData.Apply` | context/hrms-context.tsx:157-196 | only a delete can be refused, and a refused operation changes nothing |
| `Integrity.DeleteCompanyKeepsForeignKeys` | context/hrms-context.tsx:802-820 | if every foreign key resolved before `deleteCompany`, every foreign key resolves after it |
| `Integrity.DeleteDepartmentKeepsForeignKeys` | context/hrms-context.tsx:847-867 | if every foreign key resolved before `deleteDepartment`, every foreign key resolves after it |
| `Integrity.DeleteCategoryKeepsForeignKeys` | context/hrms-context.tsx:894-912 | if every foreign key resolved before `deleteCategory`, every foreign key resolves after it |
| `Integrity.DeleteDesignationKeepsForeignKeys` | context/hrms-context.tsx:939-957 | if every foreign key resolved before `deleteDesignation`, every foreign key resolves after it |
| `Integrity.DeleteShiftKeepsForeignKeys` | context/hrms-context.tsx:984-1002 | if every foreign key resolved before `deleteShift`, every foreign key resolves after it |
| `Integrity.DeleteHolidayKeepsForeignKeys` | context/hrms-context.tsx:1029-1036 | if every foreign key resolved before `deleteHoliday`, every foreign key resolves after it |
| `Integrity.DeleteLeaveTypeKeepsForeignKeys` | context/hrms-context.tsx:1063-1081 | if every foreign key resolved before `deleteLeaveType`, every foreign key resolves after it |
| `Integrity.DeleteEmployeeKeepsForeignKeys` | context/hrms-context.tsx:1108-1129 | if every foreign key resolved before `deleteEmployee`, every foreign key resolves after it |
| `Integrity.DeleteLeaveApplicationKeepsForeignKeys` | context/hrms-context.tsx:1161-1167 | if every foreign key resolved before `deleteLeaveApplication`, every foreign key resolves after it |
| `Integrity.DeleteManualEntryKeepsForeignKeys` | context/hrms-context.tsx:1224-1230 | if every foreign key resolved before `deleteManualEntry`, every foreign key resolves after it |
| `Integrity.StatusChangesKeepForeignKeys` | context/hrms-context.tsx:1169-1197 | approval and rejection preserve foreign-key validity |
| `Integrity.AddDoesNotCheckForeignKeys` | context/hrms-context.tsx:823-830 | adding a department whose `companyId` names no company breaks foreign-key validity: adds do not check references |
| `Integrity.UpdateCanDuplicateIds` | context/hrms-context.tsx:787-800 | updating one company with a partial that carries another company's id leaves two companies with the same id |
| `Integrity.StatusChangesKeepIdsUnique` | context/hrms-context.tsx:1169-1197 | approval and rejection keep ids unique |
| `Integrity.CompanyOpsKeepIdsUnique` | context/hrms-context.tsx:778-820 | when no two records of any collection share an id, that stays so after adding a company, after deleting one (blocked or not), and after updating one with a partial that carries no id or the same id |
| `Integrity.DepartmentOpsKeepIdsUnique` | context/hrms-context.tsx:823-867 | when no two records of any collection share an id, that stays so after adding a department, after deleting one (blocked or not), and after updating one with a partial that carries no id or the same id |
| `Integrity.CategoryOpsKeepIdsUnique` | context/hrms-context.tsx:870-912 | when no two records of any collection share an id, that stays so after adding a category, after deleting one (blocked or not), and after updating one with a partial that carries no id or the same id |
| `Integrity.DesignationOpsKeepIdsUnique` | context/hrms-context.tsx:915-957 | when no two records of any collection share an id, that stays so after adding a designation, after deleting one (blocked or not), and after updating one with a partial that carries no id or the same id |
| `Integrity.ShiftOpsKeepIdsUnique` | context/hrms-context.tsx:960-1002 | when no two records of any collection share an id, that stays so after adding a shift, after deleting one (blocked or not), and after updating one with a partial that carries no id or the same id |
| `Integrity.HolidayOpsKeepIdsUnique` | context/hrms-context.tsx:1005-1036 | when no two records of any collection share an id, that stays so after adding a holiday, after deleting one (blocked or not), and after updating one with a partial that carries no id or the same id |
| `Integrity.LeaveTypeOpsKeepIdsUnique` | context/hrms-context.tsx:1039-1081 | when no two records of any collection share an id, that stays so after adding a leave type, after deleting one (blocked or not), and after updating one with a partial that carries no id or the same id |
| `Integrity.EmployeeOpsKeepIdsUnique` | context/hrms-context.tsx:1084-1129 | when no two records of any collection share an id, that stays so after adding a employee, after deleting one (blocked or not), and after updating one with a partial that carries no id or the same id |
| `Integrity.LeaveApplicationOpsKeepIdsUnique` | context/hrms-context.tsx:1132-1167 | when no two records of any collection share an id, that stays so after adding a leave application, after deleting one (blocked or not), and after updating one with a partial that carries no id or the same id |
| `Integrity.ManualEntryOpsKeepIdsUnique` | context/hrms-context.tsx:1200-1230 | when no two records of any collection share an id, that stays so after adding a manual entry, after deleting one (blocked or not), and after updating one with a partial that carries no id or the same id |
| `Scenarios.CompanyDepartmentScenario` | context/hrms-context.tsx:802-867 | a department added under a company blocks that company's delete and changes nothing; deleting the new department at once succeeds and restores the earlier state; then the company's delete succeeds when no other department used it |
| `Scenarios.EmployeeBlocksItsMasters` | context/hrms-context.tsx:847-1002 | after adding an employee, deleting its department, category, designation or shift is blocked |
| `Scenarios.LeaveApplicationScenario` | context/hrms-context.tsx:1132-1197 | a new application is looked up as Pending with `appliedOn` the current time; after approval it is Approved; after a later rejection it is Rejected |
| `Scenarios.LastDecisionWins` | context/hrms-context.tsx:1169-1197 | approve-then-reject equals reject alone and reject-then-approve equals approve alone: status changes are unguarded |
| `Scenarios.DeletedIdIsReused` | context/hrms-context.tsx:773-820 | adding a company and deleting it at once restores the earlier state, and the next add is given the deleted company's id again |
| `Provider.Hrms.constructor` | context/hrms-context.tsx:628-638 | the store starts from the given collections |
| `Provider.Hrms.AddCompany` | context/hrms-context.tsx:778-785 | the new state and the returned outcome are those of `Db.AddCompany` on the old state |
| `Provider.Hrms.UpdateCompany` | context/hrms-context.tsx:787-800 | the new state and the returned outcome are those of `Db.UpdateCompany` on the old state |
| `Provider.Hrms.DeleteCompany` | context/hrms-context.tsx:802-820 | the new state and the returned outcome are those of `Db.DeleteCompany` on the old state |
| `Provider.Hrms.AddDepartment` | context/hrms-context.tsx:823-830 | the new state and the returned outcome are those of `Db.AddDepartment` on the old state |
| `Provider.Hrms.UpdateDepartment` | context/hrms-context.tsx:832-845 | the new state and the returned outcome are those of `Db.UpdateDepartment` on the old state |
| `Provider.Hrms.DeleteDepartment` | context/hrms-context.tsx:847-867 | the new state and the returned outcome are those of `Db.DeleteDepartment` on the old state |
| `Provider.Hrms.AddCategory` | context/hrms-context.tsx:870-877 | the new state and the returned outcome are those of `Db.AddCategory` on the old state |
| `Provider.Hrms.UpdateCategory` | context/hrms-context.tsx:879-892 | the new state and the returned outcome are those of `Db.UpdateCategory` on the old state |
| `Provider.Hrms.DeleteCategory` | context/hrms-context.tsx:894-912 | the new state and the returned outcome are those of `Db.DeleteCategory` on the old state |
| `Provider.Hrms.AddDesignation` | context/hrms-context.tsx:915-922 | the new state and the returned outcome are those of `Db.AddDesignation` on the old state |
| `Provider.Hrms.UpdateDesignation` | context/hrms-context.tsx:924-937 | the new state and the returned outcome are those of `Db.UpdateDesignation` on the old state |
| `Provider.Hrms.DeleteDesignation` | context/hrms-context.tsx:939-957 | the new state and the returned outcome are those of `Db.DeleteDesignation` on the old state |
| `Provider.Hrms.AddShift` | context/hrms-context.tsx:960-967 | the new state and the returned outcome are those of `Db.AddShift` on the old state |
| `Provider.Hrms.UpdateShift` | context/hrms-context.tsx:969-982 | the new state and the returned outcome are those of `Db.UpdateShift` on the old state |
| `Provider.Hrms.DeleteShift` | context/hrms-context.tsx:984-1002 | the new state and the returned outcome are those of `Db.DeleteShift` on the old state |
| `Provider.Hrms.AddHoliday` | context/hrms-context.tsx:1005-1012 | the new state and the returned outcome are those of `Db.AddHoliday` on the old state |
| `Provider.Hrms.UpdateHoliday` | context/hrms-context.tsx:1014-1027 | the new state and the returned outcome are those of `Db.UpdateHoliday` on the old state |
| `Provider.Hrms.DeleteHoliday` | context/hrms-context.tsx:1029-1036 | the new state and the returned outcome are those of `Db.DeleteHoliday` on the old state |
| `Provider.Hrms.AddLeaveType` | context/hrms-context.tsx:1039-1046 | the new state and the returned outcome are those of `Db.AddLeaveType` on the old state |
| `Provider.Hrms.UpdateLeaveType` | context/hrms-context.tsx:1048-1061 | the new state and the returned outcome are those of `Db.UpdateLeaveType` on the old state |
| `Provider.Hrms.DeleteLeaveType` | context/hrms-context.tsx:1063-1081 | the new state and the returned outcome are those of `Db.DeleteLeaveType` on the old state |
| `Provider.Hrms.AddEmployee` | context/hrms-context.tsx:1084-1091 | the new state and the returned outcome are those of `Db.AddEmployee` on the old state |
| `Provider.Hrms.UpdateEmployee` | context/hrms-context.tsx:1093-1106 | the new state and the returned outcome are those of `Db.UpdateEmployee` on the old state |
| `Provider.Hrms.DeleteEmployee` | context/hrms-context.tsx:1108-1129 | the new state and the returned outcome are those of `Db.DeleteEmployee` on the old state |
| `Provider.Hrms.AddLeaveApplication` | context/hrms-context.tsx:1132-1144 | the new state and the returned outcome are those of `Db.AddLeaveApplication` on the old state |
| `Provider.Hrms.UpdateLeaveApplication` | context/hrms-context.tsx:1146-1159 | the new state and the returned outcome are those of `Db.UpdateLeaveApplication` on the old state |
| `Provider.Hrms.DeleteLeaveApplication` | context/hrms-context.tsx:1161-1167 | the new state and the returned outcome are those of `Db.DeleteLeaveApplication` on the old state |
| `Provider.Hrms.ApproveLeaveApplication` | context/hrms-context.tsx:1169-1182 | the new state and the returned outcome are those of `Db.ApproveLeaveApplication` on the old state |
| `Provider.Hrms.RejectLeaveApplication` | context/hrms-context.tsx:1184-1197 | the new state and the returned outcome are those of `Db.RejectLeaveApplication` on the old state |
| `Provider.Hrms.AddManualEntry` | context/hrms-context.tsx:1200-1207 | the new state and the returned outcome are those of `Db.AddManualEntry` on the old state |
| `Provider.Hrms.UpdateManualEntry` | context/hrms-context.tsx:1209-1222 | the new state and the returned outcome are those of `Db.UpdateManualEntry` on the old state |
| `Provider.Hrms.DeleteManualEntry` | context/hrms-context.tsx:1224-1230 | the new state and the returned outcome are those of `Db.DeleteManualEntry` on the old state |
| `Provider.Hrms.GetDepartmentById` | context/hrms-context.tsx:1233 | none exactly when no department has the id; otherwise the department at the first index holding the id |
| `Provider.Hrms.GetCategoryById` | context/hrms-context.tsx:1234 | none exactly when no category has the id; otherwise the category at the first index holding the id |
| `Provider.Hrms.GetDesignationById` | context/hrms-context.tsx:1235 | none exactly when no designation has the id; otherwise the designation at the first index holding the id |
| `Provider.Hrms.GetShiftById` | context/hrms-context.tsx:1236 | none exactly when no shift has the id; otherwise the shift at the first index holding the id |
| `Provider.Hrms.GetEmployeeById` | context/hrms-context.tsx:1237 | none exactly when no employee has the id; otherwise the employee at the first index holding the id |
| `Provider.Hrms.GetLeaveTypeById` | context/hrms-context.tsx:1238 | none exactly when no leave type has the id; otherwise the leave type at the first index holding the id |
| `Provider.Hrms.GetCompanyById` | context/hrms-context.tsx:1239 | none exactly when no company has the id; otherwise the company at the first index holding the id |

## Left out

- Loading from and saving to `localStorage`, JSON parsing and serialisation, and turning stored date strings back into dates: this is browser I/O. The constructor takes the initial collections instead.
- The seeded sample data: a starting state is a constructor argument.
- The text of the toast notifications. Only which outcome is announced is modelled.
- React state hooks, effects, the context object and `useHRMS`. They are UI plumbing; the store is modelled as one object whose methods run one after another.
- Attendance records have no add, update or delete operation in the source. The model holds them, and deleting an employee checks them, as in the source.
- The seven `get*ById` lookups exist only for departments, categories, designations, shifts, employees, leave types and companies, as in the source. There is none for holidays, leave applications, manual entries or attendances.
- JavaScript number semantics (floating point, `NaN`, non-integer ids) and the `RangeError` that `Math.max(...ids)` can raise on a very large array are not modelled.
- TypeScript's `Partial<T>` also lets a caller pass `undefined` for a required property. The merge would then copy it. The model keeps required properties required.
- Adds and updates do not check foreign keys in the source, so the model does not either (`Integrity.AddDoesNotCheckForeignKeys`). Foreign-key validity is therefore proved only for deletes, approval and rejection.
- The forms, tables, report pages, dashboard, navigation and layout are user interface. Their validation rules and date arithmetic live there, not in the store.
