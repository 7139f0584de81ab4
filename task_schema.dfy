/**
 * The task request and response schema: the four enumerations, the field
 * bounds the schema layer enforces before a handler runs, and which fields
 * each request body may carry.
 */
module TaskSchema {
  import opened Common

  datatype Role = Admin | Manager | Developer | Tester
  datatype Priority = Low | Medium | High
  datatype DevStatus = DevPending | InProgress | Completed
  datatype TesterStatus = TestPending | Tested | Closed

  // ----- wire names of the enumerations ------------------------------------

  function RoleName(r: Role): string {
    match r
    case Admin => "admin"
    case Manager => "manager"
    case Developer => "developer"
    case Tester => "tester"
  }

  function PriorityName(p: Priority): string {
    match p
    case Low => "low"
    case Medium => "medium"
    case High => "high"
  }

  function DevStatusName(s: DevStatus): string {
    match s
    case DevPending => "pending"
    case InProgress => "in_progress"
    case Completed => "completed"
  }

  function TesterStatusName(s: TesterStatus): string {
    match s
    case TestPending => "pending"
    case Tested => "tested"
    case Closed => "closed"
  }

  /** The role named by a string; exactly the four role names are accepted. */
  function ParseRole(s: string): (r: Option<Role>)
    ensures r.Some? <==> s == "admin" || s == "manager" || s == "developer" || s == "tester"
    ensures r.Some? ==> RoleName(r.value) == s
  {
    if s == "admin" then Some(Admin)
    else if s == "manager" then Some(Manager)
    else if s == "developer" then Some(Developer)
    else if s == "tester" then Some(Tester)
    else None
  }

  function ParsePriority(s: string): (r: Option<Priority>)
    ensures r.Some? <==> s == "low" || s == "medium" || s == "high"
    ensures r.Some? ==> PriorityName(r.value) == s
  {
    if s == "low" then Some(Low)
    else if s == "medium" then Some(Medium)
    else if s == "high" then Some(High)
    else None
  }

  function ParseDevStatus(s: string): (r: Option<DevStatus>)
    ensures r.Some? <==> s == "pending" || s == "in_progress" || s == "completed"
    ensures r.Some? ==> DevStatusName(r.value) == s
  {
    if s == "pending" then Some(DevPending)
    else if s == "in_progress" then Some(InProgress)
    else if s == "completed" then Some(Completed)
    else None
  }

  function ParseTesterStatus(s: string): (r: Option<TesterStatus>)
    ensures r.Some? <==> s == "pending" || s == "tested" || s == "closed"
    ensures r.Some? ==> TesterStatusName(r.value) == s
  {
    if s == "pending" then Some(TestPending)
    else if s == "tested" then Some(Tested)
    else if s == "closed" then Some(Closed)
    else None
  }

  /** Every enumeration value survives the trip to its wire name and back. */
  lemma NamesRoundTrip()
    ensures forall r: Role :: ParseRole(RoleName(r)) == Some(r)
    ensures forall p: Priority :: ParsePriority(PriorityName(p)) == Some(p)
    ensures forall s: DevStatus :: ParseDevStatus(DevStatusName(s)) == Some(s)
    ensures forall s: TesterStatus :: ParseTesterStatus(TesterStatusName(s)) == Some(s)
  {
  }

  // ----- field bounds -------------------------------------------------------

  const TitleMin := 3
  const TitleMax := 160
  const DescriptionMax := 10000

  predicate ValidTitle(s: string) {
    TitleMin <= |s| <= TitleMax
  }

  predicate ValidDescription(d: Option<string>) {
    d.Some? ==> |d.value| <= DescriptionMax
  }

  // ----- validated request bodies ------------------------------------------

  /** Body of a create request; the assignees are optional. */
  datatype TaskCreate = TaskCreate(
    title: string,
    description: Option<string>,
    priority: Priority,
    dueDate: Option<int>,
    projectId: Id,
    createdBy: string,
    assignedToDev: Option<string>,
    assignedToTester: Option<string>)

  /** Body of the admin/manager full update: there is no status field. */
  datatype TaskUpdateAdmin = TaskUpdateAdmin(
    title: Option<string>,
    description: Option<string>,
    priority: Option<Priority>,
    dueDate: Option<int>,
    assignedToDev: Option<string>,
    assignedToTester: Option<string>)

  /** Body of a developer status update: only the developer status. */
  datatype TaskUpdateDeveloper = TaskUpdateDeveloper(devStatus: DevStatus)

  /** Body of a tester status update: the status and, optionally, a replacement remark list. */
  datatype TaskUpdateTester = TaskUpdateTester(testerStatus: TesterStatus, remarks: Option<seq<string>>)

  /** Body of a remark append: at least one remark. */
  datatype TaskAppendRemarks = TaskAppendRemarks(remarks: seq<string>)

  predicate ValidTaskCreate(p: TaskCreate) {
    ValidTitle(p.title) && ValidDescription(p.description)
  }

  predicate ValidTaskUpdateAdmin(p: TaskUpdateAdmin) {
    (p.title.Some? ==> ValidTitle(p.title.value)) && ValidDescription(p.description)
  }

  predicate ValidTaskAppendRemarks(p: TaskAppendRemarks) {
    |p.remarks| >= 1
  }

  // ----- raw request bodies and their validation ---------------------------

  /** A create body as received: enumerations still strings, defaults not yet applied. */
  datatype TaskCreateRequest = TaskCreateRequest(
    title: string,
    description: Option<string>,
    priority: Option<string>,
    dueDate: Option<int>,
    projectId: Id,
    createdBy: string,
    assignedToDev: Option<string>,
    assignedToTester: Option<string>)

  datatype TaskUpdateAdminRequest = TaskUpdateAdminRequest(
    title: Option<string>,
    description: Option<string>,
    priority: Option<string>,
    dueDate: Option<int>,
    assignedToDev: Option<string>,
    assignedToTester: Option<string>)

  /** Parse an optional enumeration field: absent stays absent, a bad name fails. */
  function ParseOptionalPriority(s: Option<string>): Option<Option<Priority>> {
    if s.None? then Some(None)
    else if ParsePriority(s.value).Some? then Some(ParsePriority(s.value))
    else None
  }

  /**
   * Validate a create body. It is accepted iff the title has 3..160
   * characters, the description at most 10,000 and the priority, when given,
   * is a priority name; a missing priority becomes medium.
   */
  function DecodeTaskCreate(req: TaskCreateRequest): (r: Option<TaskCreate>)
    ensures r.Some? <==>
      ValidTitle(req.title) && ValidDescription(req.description) &&
      (req.priority.Some? ==> ParsePriority(req.priority.value).Some?)
    ensures r.Some? ==> ValidTaskCreate(r.value)
    ensures r.Some? && req.priority.None? ==> r.value.priority == Medium
    ensures r.Some? && req.priority.Some? ==> PriorityName(r.value.priority) == req.priority.value
    ensures r.Some? ==>
      r.value.title == req.title && r.value.description == req.description &&
      r.value.dueDate == req.dueDate && r.value.projectId == req.projectId &&
      r.value.createdBy == req.createdBy &&
      r.value.assignedToDev == req.assignedToDev && r.value.assignedToTester == req.assignedToTester
  {
    if !ValidTitle(req.title) || !ValidDescription(req.description) then None
    else
      match ParseOptionalPriority(req.priority)
      case None => None
      case Some(p) =>
        Some(TaskCreate(req.title, req.description, p.GetOr(Medium), req.dueDate, req.projectId,
                        req.createdBy, req.assignedToDev, req.assignedToTester))
  }

  /**
   * Validate an admin update body: the same bounds as on create, applied to
   * the fields that are present; nothing is defaulted.
   */
  function DecodeTaskUpdateAdmin(req: TaskUpdateAdminRequest): (r: Option<TaskUpdateAdmin>)
    ensures r.Some? <==>
      (req.title.Some? ==> ValidTitle(req.title.value)) && ValidDescription(req.description) &&
      (req.priority.Some? ==> ParsePriority(req.priority.value).Some?)
    ensures r.Some? ==> ValidTaskUpdateAdmin(r.value)
    ensures r.Some? ==> (r.value.priority.Some? <==> req.priority.Some?)
    ensures r.Some? && req.priority.Some? ==> PriorityName(r.value.priority.value) == req.priority.value
    ensures r.Some? ==>
      r.value.title == req.title && r.value.description == req.description &&
      r.value.dueDate == req.dueDate &&
      r.value.assignedToDev == req.assignedToDev && r.value.assignedToTester == req.assignedToTester
  {
    if (req.title.Some? && !ValidTitle(req.title.value)) || !ValidDescription(req.description) then None
    else
      match ParseOptionalPriority(req.priority)
      case None => None
      case Some(p) =>
        Some(TaskUpdateAdmin(req.title, req.description, p, req.dueDate, req.assignedToDev, req.assignedToTester))
  }

  function DecodeTaskUpdateDeveloper(devStatus: string): (r: Option<TaskUpdateDeveloper>)
    ensures r.Some? <==> ParseDevStatus(devStatus).Some?
    ensures r.Some? ==> DevStatusName(r.value.devStatus) == devStatus
  {
    match ParseDevStatus(devStatus)
    case None => None
    case Some(s) => Some(TaskUpdateDeveloper(s))
  }

  function DecodeTaskUpdateTester(testerStatus: string, remarks: Option<seq<string>>): (r: Option<TaskUpdateTester>)
    ensures r.Some? <==> ParseTesterStatus(testerStatus).Some?
    ensures r.Some? ==> TesterStatusName(r.value.testerStatus) == testerStatus && r.value.remarks == remarks
  {
    match ParseTesterStatus(testerStatus)
    case None => None
    case Some(s) => Some(TaskUpdateTester(s, remarks))
  }

  /** An append body is accepted iff it carries at least one remark. */
  function DecodeTaskAppendRemarks(remarks: seq<string>): (r: Option<TaskAppendRemarks>)
    ensures r.Some? <==> |remarks| >= 1
    ensures r.Some? ==> ValidTaskAppendRemarks(r.value) && r.value.remarks == remarks
  {
    if |remarks| == 0 then None else Some(TaskAppendRemarks(remarks))
  }
}
