/**
 * The record types of the master-data store, the partial records that
 * `update*` merges into them, and the accessors that read a record's own id
 * and its foreign keys.
 *
 * A JavaScript `number` that is an identifier is an `int`; every other
 * `number` (hours, minutes, day counts) is a `real`. A `Date` is the number
 * of milliseconds since the epoch. An optional property `p?: T` is an
 * `Option<T>`.
 */
module Entities {
  import opened Options

  type Date = int

  datatype Gender = Male | Female
  datatype DayDuration = Full | Half
  datatype LeaveStatus = Pending | Approved | Rejected
  datatype AttendanceStatus = Present | Absent | HalfDay | OnLeave

  datatype Company = Company(
    id: int, code: string, name: string, email: string, phone: string,
    address: string, gstNo: Option<string>, pan: Option<string>,
    website: Option<string>, logo: Option<string>)

  datatype Department = Department(
    id: int, code: string, name: string, companyId: int,
    description: Option<string>)

  datatype Category = Category(
    id: int, code: string, name: string, description: Option<string>)

  datatype Designation = Designation(
    id: int, code: string, name: string, departmentId: int,
    description: Option<string>)

  datatype Shift = Shift(
    id: int, code: string, name: string, startTime: string, endTime: string,
    gracePeriod: Option<real>, workingHours: real, isActive: bool)

  datatype Holiday = Holiday(
    id: int, date: Date, name: string, description: Option<string>,
    isOptional: bool)

  datatype LeaveType = LeaveType(
    id: int, code: string, name: string, description: Option<string>,
    allowedDays: real, carryForward: bool, maxCarryForwardDays: Option<real>)

  datatype Employee = Employee(
    id: int, machineCode: string, employeeCode: string, name: string,
    hireDate: Date, gender: Gender, departmentId: int, categoryId: int,
    designationId: int, shiftId: int, otEligible: bool, autoShift: bool,
    resigned: bool,
    // personal details
    qualification: Option<string>, experience: Option<string>,
    previousCompany: Option<string>, email: Option<string>,
    permanentAddress: Option<string>, city: Option<string>,
    state: Option<string>, country: Option<string>, phone: Option<string>,
    mobile: Option<string>, bloodGroup: Option<string>,
    height: Option<string>, weight: Option<string>,
    abhaNumber: Option<string>, aadharCardNo: Option<string>,
    dob: Option<Date>, bankAccountNo: Option<string>,
    bankName: Option<string>, remarks: Option<string>)

  datatype LeaveApplication = LeaveApplication(
    id: int, employeeId: int, leaveTypeId: int, startDate: Date,
    endDate: Date, dayDuration: DayDuration, remarks: Option<string>,
    status: LeaveStatus, appliedOn: Date)

  datatype ManualEntry = ManualEntry(
    id: int, employeeId: int, date: Date, inTime: Option<string>,
    outTime: Option<string>, remarks: Option<string>)

  datatype Attendance = Attendance(
    id: int, employeeId: int, date: Date, inTime: string,
    outTime: Option<string>, status: AttendanceStatus,
    lateMinutes: Option<real>, earlyDepartureMinutes: Option<real>,
    overtimeHours: Option<real>)

  /**
   * One property of a spread `{ ...record, ...partial }`: the partial's value
   * when the partial carries the key, the record's value otherwise.
   */
  function Override<T>(current: T, supplied: Option<T>): (r: T)
    ensures supplied.None? ==> r == current
    ensures supplied.Some? ==> r == supplied.value
  {
    if supplied.Some? then supplied.value else current
  }

  // ---------------------------------------------------------------------
  // Partial records (`Partial<T>`). A key absent from the partial is None.
  // For an optional property, Some(None) is the key present with the value
  // `undefined`, which the spread copies. `Partial<T>` includes `id`.
  // ---------------------------------------------------------------------

  datatype CompanyPatch = CompanyPatch(
    id: Option<int>, code: Option<string>, name: Option<string>,
    email: Option<string>, phone: Option<string>, address: Option<string>,
    gstNo: Option<Option<string>>, pan: Option<Option<string>>,
    website: Option<Option<string>>, logo: Option<Option<string>>)

  datatype DepartmentPatch = DepartmentPatch(
    id: Option<int>, code: Option<string>, name: Option<string>,
    companyId: Option<int>, description: Option<Option<string>>)

  datatype CategoryPatch = CategoryPatch(
    id: Option<int>, code: Option<string>, name: Option<string>,
    description: Option<Option<string>>)

  datatype DesignationPatch = DesignationPatch(
    id: Option<int>, code: Option<string>, name: Option<string>,
    departmentId: Option<int>, description: Option<Option<string>>)

  datatype ShiftPatch = ShiftPatch(
    id: Option<int>, code: Option<string>, name: Option<string>,
    startTime: Option<string>, endTime: Option<string>,
    gracePeriod: Option<Option<real>>, workingHours: Option<real>,
    isActive: Option<bool>)

  datatype HolidayPatch = HolidayPatch(
    id: Option<int>, date: Option<Date>, name: Option<string>,
    description: Option<Option<string>>, isOptional: Option<bool>)

  datatype LeaveTypePatch = LeaveTypePatch(
    id: Option<int>, code: Option<string>, name: Option<string>,
    description: Option<Option<string>>, allowedDays: Option<real>,
    carryForward: Option<bool>, maxCarryForwardDays: Option<Option<real>>)

  datatype EmployeePatch = EmployeePatch(
    id: Option<int>, machineCode: Option<string>,
    employeeCode: Option<string>, name: Option<string>,
    hireDate: Option<Date>, gender: Option<Gender>,
    departmentId: Option<int>, categoryId: Option<int>,
    designationId: Option<int>, shiftId: Option<int>,
    otEligible: Option<bool>, autoShift: Option<bool>,
    resigned: Option<bool>,
    qualification: Option<Option<string>>, experience: Option<Option<string>>,
    previousCompany: Option<Option<string>>, email: Option<Option<string>>,
    permanentAddress: Option<Option<string>>, city: Option<Option<string>>,
    state: Option<Option<string>>, country: Option<Option<string>>,
    phone: Option<Option<string>>, mobile: Option<Option<string>>,
    bloodGroup: Option<Option<string>>, height: Option<Option<string>>,
    weight: Option<Option<string>>, abhaNumber: Option<Option<string>>,
    aadharCardNo: Option<Option<string>>, dob: Option<Option<Date>>,
    bankAccountNo: Option<Option<string>>, bankName: Option<Option<string>>,
    remarks: Option<Option<string>>)

  datatype LeaveApplicationPatch = LeaveApplicationPatch(
    id: Option<int>, employeeId: Option<int>, leaveTypeId: Option<int>,
    startDate: Option<Date>, endDate: Option<Date>,
    dayDuration: Option<DayDuration>, remarks: Option<Option<string>>,
    status: Option<LeaveStatus>, appliedOn: Option<Date>)

  datatype ManualEntryPatch = ManualEntryPatch(
    id: Option<int>, employeeId: Option<int>, date: Option<Date>,
    inTime: Option<Option<string>>, outTime: Option<Option<string>>,
    remarks: Option<Option<string>>)

  // ---------------------------------------------------------------------
  // Shallow merges `{ ...record, ...partial }`: each property the partial
  // carries is taken from it, each property it lacks keeps the record's value.
  // ---------------------------------------------------------------------

  function MergeCompany(c: Company, p: CompanyPatch): (r: Company)
    ensures p.id.None? ==> r.id == c.id
    ensures p.id.Some? ==> r.id == p.id.value
    ensures p.code.None? ==> r.code == c.code
    ensures p.code.Some? ==> r.code == p.code.value
    ensures p.name.None? ==> r.name == c.name
    ensures p.name.Some? ==> r.name == p.name.value
    ensures p.email.None? ==> r.email == c.email
    ensures p.email.Some? ==> r.email == p.email.value
    ensures p.phone.None? ==> r.phone == c.phone
    ensures p.phone.Some? ==> r.phone == p.phone.value
    ensures p.address.None? ==> r.address == c.address
    ensures p.address.Some? ==> r.address == p.address.value
    ensures p.gstNo.None? ==> r.gstNo == c.gstNo
    ensures p.gstNo.Some? ==> r.gstNo == p.gstNo.value
    ensures p.pan.None? ==> r.pan == c.pan
    ensures p.pan.Some? ==> r.pan == p.pan.value
    ensures p.website.None? ==> r.website == c.website
    ensures p.website.Some? ==> r.website == p.website.value
    ensures p.logo.None? ==> r.logo == c.logo
    ensures p.logo.Some? ==> r.logo == p.logo.value
  {
    Company(Override(c.id, p.id), Override(c.code, p.code),
            Override(c.name, p.name), Override(c.email, p.email),
            Override(c.phone, p.phone), Override(c.address, p.address),
            Override(c.gstNo, p.gstNo), Override(c.pan, p.pan),
            Override(c.website, p.website), Override(c.logo, p.logo))
  }

  function MergeDepartment(d: Department, p: DepartmentPatch): (r: Department)
    ensures p.id.None? ==> r.id == d.id
    ensures p.id.Some? ==> r.id == p.id.value
    ensures p.code.None? ==> r.code == d.code
    ensures p.code.Some? ==> r.code == p.code.value
    ensures p.name.None? ==> r.name == d.name
    ensures p.name.Some? ==> r.name == p.name.value
    ensures p.companyId.None? ==> r.companyId == d.companyId
    ensures p.companyId.Some? ==> r.companyId == p.companyId.value
    ensures p.description.None? ==> r.description == d.description
    ensures p.description.Some? ==> r.description == p.description.value
  {
    Department(Override(d.id, p.id), Override(d.code, p.code),
               Override(d.name, p.name), Override(d.companyId, p.companyId),
               Override(d.description, p.description))
  }

  function MergeCategory(c: Category, p: CategoryPatch): (r: Category)
    ensures p.id.None? ==> r.id == c.id
    ensures p.id.Some? ==> r.id == p.id.value
    ensures p.code.None? ==> r.code == c.code
    ensures p.code.Some? ==> r.code == p.code.value
    ensures p.name.None? ==> r.name == c.name
    ensures p.name.Some? ==> r.name == p.name.value
    ensures p.description.None? ==> r.description == c.description
    ensures p.description.Some? ==> r.description == p.description.value
  {
    Category(Override(c.id, p.id), Override(c.code, p.code),
             Override(c.name, p.name), Override(c.description, p.description))
  }

  function MergeDesignation(g: Designation, p: DesignationPatch): (r: Designation)
    ensures p.id.None? ==> r.id == g.id
    ensures p.id.Some? ==> r.id == p.id.value
    ensures p.code.None? ==> r.code == g.code
    ensures p.code.Some? ==> r.code == p.code.value
    ensures p.name.None? ==> r.name == g.name
    ensures p.name.Some? ==> r.name == p.name.value
    ensures p.departmentId.None? ==> r.departmentId == g.departmentId
    ensures p.departmentId.Some? ==> r.departmentId == p.departmentId.value
    ensures p.description.None? ==> r.description == g.description
    ensures p.description.Some? ==> r.description == p.description.value
  {
    Designation(Override(g.id, p.id), Override(g.code, p.code),
                Override(g.name, p.name),
                Override(g.departmentId, p.departmentId),
                Override(g.description, p.description))
  }

  function MergeShift(s: Shift, p: ShiftPatch): (r: Shift)
    ensures p.id.None? ==> r.id == s.id
    ensures p.id.Some? ==> r.id == p.id.value
    ensures p.code.None? ==> r.code == s.code
    ensures p.code.Some? ==> r.code == p.code.value
    ensures p.name.None? ==> r.name == s.name
    ensures p.name.Some? ==> r.name == p.name.value
    ensures p.startTime.None? ==> r.startTime == s.startTime
    ensures p.startTime.Some? ==> r.startTime == p.startTime.value
    ensures p.endTime.None? ==> r.endTime == s.endTime
    ensures p.endTime.Some? ==> r.endTime == p.endTime.value
    ensures p.gracePeriod.None? ==> r.gracePeriod == s.gracePeriod
    ensures p.gracePeriod.Some? ==> r.gracePeriod == p.gracePeriod.value
    ensures p.workingHours.None? ==> r.workingHours == s.workingHours
    ensures p.workingHours.Some? ==> r.workingHours == p.workingHours.value
    ensures p.isActive.None? ==> r.isActive == s.isActive
    ensures p.isActive.Some? ==> r.isActive == p.isActive.value
  {
    Shift(Override(s.id, p.id), Override(s.code, p.code),
          Override(s.name, p.name), Override(s.startTime, p.startTime),
          Override(s.endTime, p.endTime),
          Override(s.gracePeriod, p.gracePeriod),
          Override(s.workingHours, p.workingHours),
          Override(s.isActive, p.isActive))
  }

  function MergeHoliday(h: Holiday, p: HolidayPatch): (r: Holiday)
    ensures p.id.None? ==> r.id == h.id
    ensures p.id.Some? ==> r.id == p.id.value
    ensures p.date.None? ==> r.date == h.date
    ensures p.date.Some? ==> r.date == p.date.value
    ensures p.name.None? ==> r.name == h.name
    ensures p.name.Some? ==> r.name == p.name.value
    ensures p.description.None? ==> r.description == h.description
    ensures p.description.Some? ==> r.description == p.description.value
    ensures p.isOptional.None? ==> r.isOptional == h.isOptional
    ensures p.isOptional.Some? ==> r.isOptional == p.isOptional.value
  {
    Holiday(Override(h.id, p.id), Override(h.date, p.date),
            Override(h.name, p.name), Override(h.description, p.description),
            Override(h.isOptional, p.isOptional))
  }

  function MergeLeaveType(t: LeaveType, p: LeaveTypePatch): (r: LeaveType)
    ensures p.id.None? ==> r.id == t.id
    ensures p.id.Some? ==> r.id == p.id.value
    ensures p.code.None? ==> r.code == t.code
    ensures p.code.Some? ==> r.code == p.code.value
    ensures p.name.None? ==> r.name == t.name
    ensures p.name.Some? ==> r.name == p.name.value
    ensures p.description.None? ==> r.description == t.description
    ensures p.description.Some? ==> r.description == p.description.value
    ensures p.allowedDays.None? ==> r.allowedDays == t.allowedDays
    ensures p.allowedDays.Some? ==> r.allowedDays == p.allowedDays.value
    ensures p.carryForward.None? ==> r.carryForward == t.carryForward
    ensures p.carryForward.Some? ==> r.carryForward == p.carryForward.value
    ensures p.maxCarryForwardDays.None? ==> r.maxCarryForwardDays == t.maxCarryForwardDays
    ensures p.maxCarryForwardDays.Some? ==> r.maxCarryForwardDays == p.maxCarryForwardDays.value
  {
    LeaveType(Override(t.id, p.id), Override(t.code, p.code),
              Override(t.name, p.name), Override(t.description, p.description),
              Override(t.allowedDays, p.allowedDays),
              Override(t.carryForward, p.carryForward),
              Override(t.maxCarryForwardDays, p.maxCarryForwardDays))
  }

  function MergeEmployee(e: Employee, p: EmployeePatch): (r: Employee)
    ensures p.id.None? ==> r.id == e.id
    ensures p.id.Some? ==> r.id == p.id.value
    ensures p.machineCode.None? ==> r.machineCode == e.machineCode
    ensures p.machineCode.Some? ==> r.machineCode == p.machineCode.value
    ensures p.employeeCode.None? ==> r.employeeCode == e.employeeCode
    ensures p.employeeCode.Some? ==> r.employeeCode == p.employeeCode.value
    ensures p.name.None? ==> r.name == e.name
    ensures p.name.Some? ==> r.name == p.name.value
    ensures p.hireDate.None? ==> r.hireDate == e.hireDate
    ensures p.hireDate.Some? ==> r.hireDate == p.hireDate.value
    ensures p.gender.None? ==> r.gender == e.gender
    ensures p.gender.Some? ==> r.gender == p.gender.value
    ensures p.departmentId.None? ==> r.departmentId == e.departmentId
    ensures p.departmentId.Some? ==> r.departmentId == p.departmentId.value
    ensures p.categoryId.None? ==> r.categoryId == e.categoryId
    ensures p.categoryId.Some? ==> r.categoryId == p.categoryId.value
    ensures p.designationId.None? ==> r.designationId == e.designationId
    ensures p.designationId.Some? ==> r.designationId == p.designationId.value
    ensures p.shiftId.None? ==> r.shiftId == e.shiftId
    ensures p.shiftId.Some? ==> r.shiftId == p.shiftId.value
    ensures p.otEligible.None? ==> r.otEligible == e.otEligible
    ensures p.otEligible.Some? ==> r.otEligible == p.otEligible.value
    ensures p.autoShift.None? ==> r.autoShift == e.autoShift
    ensures p.autoShift.Some? ==> r.autoShift == p.autoShift.value
    ensures p.resigned.None? ==> r.resigned == e.resigned
    ensures p.resigned.Some? ==> r.resigned == p.resigned.value
    ensures p.qualification.None? ==> r.qualification == e.qualification
    ensures p.qualification.Some? ==> r.qualification == p.qualification.value
    ensures p.experience.None? ==> r.experience == e.experience
    ensures p.experience.Some? ==> r.experience == p.experience.value
    ensures p.previousCompany.None? ==> r.previousCompany == e.previousCompany
    ensures p.previousCompany.Some? ==> r.previousCompany == p.previousCompany.value
    ensures p.email.None? ==> r.email == e.email
    ensures p.email.Some? ==> r.email == p.email.value
    ensures p.permanentAddress.None? ==> r.permanentAddress == e.permanentAddress
    ensures p.permanentAddress.Some? ==> r.permanentAddress == p.permanentAddress.value
    ensures p.city.None? ==> r.city == e.city
    ensures p.city.Some? ==> r.city == p.city.value
    ensures p.state.None? ==> r.state == e.state
    ensures p.state.Some? ==> r.state == p.state.value
    ensures p.country.None? ==> r.country == e.country
    ensures p.country.Some? ==> r.country == p.country.value
    ensures p.phone.None? ==> r.phone == e.phone
    ensures p.phone.Some? ==> r.phone == p.phone.value
    ensures p.mobile.None? ==> r.mobile == e.mobile
    ensures p.mobile.Some? ==> r.mobile == p.mobile.value
    ensures p.bloodGroup.None? ==> r.bloodGroup == e.bloodGroup
    ensures p.bloodGroup.Some? ==> r.bloodGroup == p.bloodGroup.value
    ensures p.height.None? ==> r.height == e.height
    ensures p.height.Some? ==> r.height == p.height.value
    ensures p.weight.None? ==> r.weight == e.weight
    ensures p.weight.Some? ==> r.weight == p.weight.value
    ensures p.abhaNumber.None? ==> r.abhaNumber == e.abhaNumber
    ensures p.abhaNumber.Some? ==> r.abhaNumber == p.abhaNumber.value
    ensures p.aadharCardNo.None? ==> r.aadharCardNo == e.aadharCardNo
    ensures p.aadharCardNo.Some? ==> r.aadharCardNo == p.aadharCardNo.value
    ensures p.dob.None? ==> r.dob == e.dob
    ensures p.dob.Some? ==> r.dob == p.dob.value
    ensures p.bankAccountNo.None? ==> r.bankAccountNo == e.bankAccountNo
    ensures p.bankAccountNo.Some? ==> r.bankAccountNo == p.bankAccountNo.value
    ensures p.bankName.None? ==> r.bankName == e.bankName
    ensures p.bankName.Some? ==> r.bankName == p.bankName.value
    ensures p.remarks.None? ==> r.remarks == e.remarks
    ensures p.remarks.Some? ==> r.remarks == p.remarks.value
  {
    Employee(Override(e.id, p.id), Override(e.machineCode, p.machineCode),
             Override(e.employeeCode, p.employeeCode),
             Override(e.name, p.name), Override(e.hireDate, p.hireDate),
             Override(e.gender, p.gender),
             Override(e.departmentId, p.departmentId),
             Override(e.categoryId, p.categoryId),
             Override(e.designationId, p.designationId),
             Override(e.shiftId, p.shiftId),
             Override(e.otEligible, p.otEligible),
             Override(e.autoShift, p.autoShift),
             Override(e.resigned, p.resigned),
             Override(e.qualification, p.qualification),
             Override(e.experience, p.experience),
             Override(e.previousCompany, p.previousCompany),
             Override(e.email, p.email),
             Override(e.permanentAddress, p.permanentAddress),
             Override(e.city, p.city), Override(e.state, p.state),
             Override(e.country, p.country), Override(e.phone, p.phone),
             Override(e.mobile, p.mobile),
             Override(e.bloodGroup, p.bloodGroup),
             Override(e.height, p.height), Override(e.weight, p.weight),
             Override(e.abhaNumber, p.abhaNumber),
             Override(e.aadharCardNo, p.aadharCardNo),
             Override(e.dob, p.dob),
             Override(e.bankAccountNo, p.bankAccountNo),
             Override(e.bankName, p.bankName),
             Override(e.remarks, p.remarks))
  }

  function MergeLeaveApplication(a: LeaveApplication, p: LeaveApplicationPatch): (r: LeaveApplication)
    ensures p.id.None? ==> r.id == a.id
    ensures p.id.Some? ==> r.id == p.id.value
    ensures p.employeeId.None? ==> r.employeeId == a.employeeId
    ensures p.employeeId.Some? ==> r.employeeId == p.employeeId.value
    ensures p.leaveTypeId.None? ==> r.leaveTypeId == a.leaveTypeId
    ensures p.leaveTypeId.Some? ==> r.leaveTypeId == p.leaveTypeId.value
    ensures p.startDate.None? ==> r.startDate == a.startDate
    ensures p.startDate.Some? ==> r.startDate == p.startDate.value
    ensures p.endDate.None? ==> r.endDate == a.endDate
    ensures p.endDate.Some? ==> r.endDate == p.endDate.value
    ensures p.dayDuration.None? ==> r.dayDuration == a.dayDuration
    ensures p.dayDuration.Some? ==> r.dayDuration == p.dayDuration.value
    ensures p.remarks.None? ==> r.remarks == a.remarks
    ensures p.remarks.Some? ==> r.remarks == p.remarks.value
    ensures p.status.None? ==> r.status == a.status
    ensures p.status.Some? ==> r.status == p.status.value
    ensures p.appliedOn.None? ==> r.appliedOn == a.appliedOn
    ensures p.appliedOn.Some? ==> r.appliedOn == p.appliedOn.value
  {
    LeaveApplication(Override(a.id, p.id),
                     Override(a.employeeId, p.employeeId),
                     Override(a.leaveTypeId, p.leaveTypeId),
                     Override(a.startDate, p.startDate),
                     Override(a.endDate, p.endDate),
                     Override(a.dayDuration, p.dayDuration),
                     Override(a.remarks, p.remarks),
                     Override(a.status, p.status),
                     Override(a.appliedOn, p.appliedOn))
  }

  function MergeManualEntry(m: ManualEntry, p: ManualEntryPatch): (r: ManualEntry)
    ensures p.id.None? ==> r.id == m.id
    ensures p.id.Some? ==> r.id == p.id.value
    ensures p.employeeId.None? ==> r.employeeId == m.employeeId
    ensures p.employeeId.Some? ==> r.employeeId == p.employeeId.value
    ensures p.date.None? ==> r.date == m.date
    ensures p.date.Some? ==> r.date == p.date.value
    ensures p.inTime.None? ==> r.inTime == m.inTime
    ensures p.inTime.Some? ==> r.inTime == p.inTime.value
    ensures p.outTime.None? ==> r.outTime == m.outTime
    ensures p.outTime.Some? ==> r.outTime == p.outTime.value
    ensures p.remarks.None? ==> r.remarks == m.remarks
    ensures p.remarks.Some? ==> r.remarks == p.remarks.value
  {
    ManualEntry(Override(m.id, p.id), Override(m.employeeId, p.employeeId),
                Override(m.date, p.date), Override(m.inTime, p.inTime),
                Override(m.outTime, p.outTime), Override(m.remarks, p.remarks))
  }

  /** `{ ...la, status: s }`, the merge behind approve and reject. */
  function WithStatus(a: LeaveApplication, s: LeaveStatus): (r: LeaveApplication)
    ensures r.status == s
    ensures r.(status := a.status) == a
  {
    a.(status := s)
  }

  // ---------------------------------------------------------------------
  // Own ids and foreign keys, as named functions so that every use passes
  // the very same function value.
  // ---------------------------------------------------------------------

  function CompanyId(c: Company): int { c.id }
  function DepartmentId(d: Department): int { d.id }
  function CategoryId(c: Category): int { c.id }
  function DesignationId(g: Designation): int { g.id }
  function ShiftId(s: Shift): int { s.id }
  function HolidayId(h: Holiday): int { h.id }
  function LeaveTypeId(t: LeaveType): int { t.id }
  function EmployeeId(e: Employee): int { e.id }
  function LeaveApplicationId(a: LeaveApplication): int { a.id }
  function ManualEntryId(m: ManualEntry): int { m.id }
  function AttendanceId(a: Attendance): int { a.id }

  function DepartmentCompany(d: Department): int { d.companyId }
  function DesignationDepartment(g: Designation): int { g.departmentId }
  function EmployeeDepartment(e: Employee): int { e.departmentId }
  function EmployeeCategory(e: Employee): int { e.categoryId }
  function EmployeeDesignation(e: Employee): int { e.designationId }
  function EmployeeShift(e: Employee): int { e.shiftId }
  function LeaveApplicationEmployee(a: LeaveApplication): int { a.employeeId }
  function LeaveApplicationLeaveType(a: LeaveApplication): int { a.leaveTypeId }
  function ManualEntryEmployee(m: ManualEntry): int { m.employeeId }
  function AttendanceEmployee(a: Attendance): int { a.employeeId }
}
