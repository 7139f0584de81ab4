/**
 * The task workflow as pure transitions on one stored task: what each
 * service operation does to the record it reads, including its failure
 * kinds. The store in TaskService applies these to its map.
 */
module TaskWorkflow {
  import opened Common
  import opened TaskSchema

  /** A stored task document. Statuses are absent (null) until that side is first assigned. */
  datatype Task = Task(
    title: string,
    description: Option<string>,
    priority: Priority,
    dueDate: Option<int>,
    projectId: Id,
    createdBy: string,
    assignedToDev: Option<string>,
    assignedToTester: Option<string>,
    devStatus: Option<DevStatus>,
    testerStatus: Option<TesterStatus>,
    remarks: seq<string>,
    createdAt: int,
    updatedAt: int)

  /** A task as the service returns it: the stored record together with its id. */
  datatype TaskView = TaskView(id: Id, task: Task)

  /** The two exception kinds the service raises: not found, and forbidden or out of order. */
  datatype Failure = ValueError(message: string) | PermissionError(message: string)

  datatype Result<T> = Ok(value: T) | Err(failure: Failure)

  const TaskNotFound := "Task not found"
  const NotAssignedToDeveloper := "Task not assigned to this developer"
  const NotAssignedToTester := "Task not assigned to this tester"
  const DeveloperMustComplete := "Developer must complete the task before tester can update status"

  /** Python truthiness of an optional string: present and not empty. */
  predicate Truthy(s: Option<string>) {
    s.Some? && s.value != ""
  }

  /**
   * The invariant every stored task keeps: a side has a status only once
   * someone was assigned to it, and a non-empty assignee always has one.
   */
  predicate Consistent(t: Task) {
    && (t.devStatus.Some? ==> t.assignedToDev.Some?)
    && (Truthy(t.assignedToDev) ==> t.devStatus.Some?)
    && (t.testerStatus.Some? ==> t.assignedToTester.Some?)
    && (Truthy(t.assignedToTester) ==> t.testerStatus.Some?)
  }

  /**
   * The assignment rule shared by assign and the admin update, for one side:
   * without a new assignee nothing changes; with one, the assignee is
   * replaced and the status becomes `pending` only if there was none.
   */
  predicate AssignmentRule<S(==)>(
    given: Option<string>, pending: S,
    before: Option<string>, beforeStatus: Option<S>,
    after: Option<string>, afterStatus: Option<S>)
  {
    if given.None? then after == before && afterStatus == beforeStatus
    else after == given && afterStatus == (if beforeStatus.None? then Some(pending) else beforeStatus)
  }

  /** Status of a side after an assignment: pending on the first one, kept afterwards. */
  function OnAssign<S>(status: Option<S>, pending: S): Option<S> {
    if status.None? then Some(pending) else status
  }

  // ----- create ---------------------------------------------------------------

  /** The record `create_task` inserts. */
  function NewTask(d: TaskCreate, now: int): (t: Task)
    ensures t.devStatus.Some? <==> Truthy(d.assignedToDev)
    ensures t.testerStatus.Some? <==> Truthy(d.assignedToTester)
    ensures t.devStatus.Some? ==> t.devStatus.value == DevPending
    ensures t.testerStatus.Some? ==> t.testerStatus.value == TestPending
    ensures t.remarks == [] && t.createdAt == now && t.updatedAt == now
    ensures t.title == d.title && t.description == d.description && t.priority == d.priority &&
            t.dueDate == d.dueDate && t.projectId == d.projectId && t.createdBy == d.createdBy &&
            t.assignedToDev == d.assignedToDev && t.assignedToTester == d.assignedToTester
    ensures Consistent(t)
  {
    Task(d.title, d.description, d.priority, d.dueDate, d.projectId, d.createdBy,
         d.assignedToDev, d.assignedToTester,
         if Truthy(d.assignedToDev) then Some(DevPending) else None,
         if Truthy(d.assignedToTester) then Some(TestPending) else None,
         [], now, now)
  }

  // ----- assign (admin/manager) -----------------------------------------------

  /**
   * `assign_task` on the record found under the id (None: not found).
   * With neither assignee given the record comes back unchanged.
   */
  function Assign(found: Option<Task>, developer: Option<string>, tester: Option<string>, now: int): (r: Result<Task>)
    ensures r.Err? <==> found.None?
    ensures r.Err? ==> r.failure == ValueError(TaskNotFound)
    ensures r.Ok? && developer.None? && tester.None? ==> r.value == found.value
    ensures r.Ok? && (developer.Some? || tester.Some?) ==> r.value.updatedAt == now
    ensures r.Ok? ==>
      AssignmentRule(developer, DevPending, found.value.assignedToDev, found.value.devStatus,
                     r.value.assignedToDev, r.value.devStatus) &&
      AssignmentRule(tester, TestPending, found.value.assignedToTester, found.value.testerStatus,
                     r.value.assignedToTester, r.value.testerStatus)
    ensures r.Ok? ==>
      r.value == found.value.(assignedToDev := r.value.assignedToDev, devStatus := r.value.devStatus,
                              assignedToTester := r.value.assignedToTester, testerStatus := r.value.testerStatus,
                              updatedAt := r.value.updatedAt)
    ensures r.Ok? && Consistent(found.value) ==> Consistent(r.value)
  {
    match found
    case None => Err(ValueError(TaskNotFound))
    case Some(t) =>
      if developer.None? && tester.None? then Ok(t)
      else
        Ok(t.(assignedToDev := if developer.Some? then developer else t.assignedToDev,
              devStatus := if developer.Some? then OnAssign(t.devStatus, DevPending) else t.devStatus,
              assignedToTester := if tester.Some? then tester else t.assignedToTester,
              testerStatus := if tester.Some? then OnAssign(t.testerStatus, TestPending) else t.testerStatus,
              updatedAt := now))
  }

  // ----- full update (admin/manager) ------------------------------------------

  predicate NothingToSet(p: TaskUpdateAdmin) {
    p.title.None? && p.description.None? && p.priority.None? && p.dueDate.None? &&
    p.assignedToDev.None? && p.assignedToTester.None?
  }

  /**
   * `update_task_admin`: the fields present in the body are written, absent
   * ones ignored, assignments follow the assignment rule, and no other field
   * (no status directly, no remark, no project or creator) can change.
   */
  function AdminUpdate(found: Option<Task>, p: TaskUpdateAdmin, now: int): (r: Result<Task>)
    ensures r.Err? <==> found.None?
    ensures r.Err? ==> r.failure == ValueError(TaskNotFound)
    ensures r.Ok? && NothingToSet(p) ==> r.value == found.value
    ensures r.Ok? && !NothingToSet(p) ==> r.value.updatedAt == now
    ensures r.Ok? ==>
      r.value.title == p.title.GetOr(found.value.title) &&
      r.value.description == (if p.description.Some? then p.description else found.value.description) &&
      r.value.priority == p.priority.GetOr(found.value.priority) &&
      r.value.dueDate == (if p.dueDate.Some? then p.dueDate else found.value.dueDate)
    ensures r.Ok? ==>
      AssignmentRule(p.assignedToDev, DevPending, found.value.assignedToDev, found.value.devStatus,
                     r.value.assignedToDev, r.value.devStatus) &&
      AssignmentRule(p.assignedToTester, TestPending, found.value.assignedToTester, found.value.testerStatus,
                     r.value.assignedToTester, r.value.testerStatus)
    ensures r.Ok? ==>
      r.value.projectId == found.value.projectId && r.value.createdBy == found.value.createdBy &&
      r.value.remarks == found.value.remarks && r.value.createdAt == found.value.createdAt
    ensures r.Ok? && Consistent(found.value) ==> Consistent(r.value)
  {
    match found
    case None => Err(ValueError(TaskNotFound))
    case Some(t) =>
      if NothingToSet(p) then Ok(t)
      else
        Ok(t.(title := p.title.GetOr(t.title),
              description := if p.description.Some? then p.description else t.description,
              priority := p.priority.GetOr(t.priority),
              dueDate := if p.dueDate.Some? then p.dueDate else t.dueDate,
              assignedToDev := if p.assignedToDev.Some? then p.assignedToDev else t.assignedToDev,
              devStatus := if p.assignedToDev.Some? then OnAssign(t.devStatus, DevPending) else t.devStatus,
              assignedToTester := if p.assignedToTester.Some? then p.assignedToTester else t.assignedToTester,
              testerStatus := if p.assignedToTester.Some? then OnAssign(t.testerStatus, TestPending) else t.testerStatus,
              updatedAt := now))
  }

  /** An admin update that carries only assignees does what assign does. */
  lemma AdminUpdateOfAssigneesIsAssign(found: Option<Task>, dev: Option<string>, tester: Option<string>, now: int)
    ensures AdminUpdate(found, TaskUpdateAdmin(None, None, None, None, dev, tester), now) == Assign(found, dev, tester, now)
  {
  }

  // ----- developer --------------------------------------------------------------

  /** `update_dev_status`: only the assigned developer, and any status may follow any other. */
  function SetDevStatus(found: Option<Task>, email: string, p: TaskUpdateDeveloper, now: int): (r: Result<Task>)
    ensures found.None? ==> r == Err(ValueError(TaskNotFound))
    ensures found.Some? && found.value.assignedToDev != Some(email) ==>
      r == Err(PermissionError(NotAssignedToDeveloper))
    ensures r.Ok? <==> found.Some? && found.value.assignedToDev == Some(email)
    ensures r.Ok? ==> r.value.devStatus == Some(p.devStatus) && r.value.updatedAt == now
    ensures r.Ok? ==> r.value == found.value.(devStatus := r.value.devStatus, updatedAt := r.value.updatedAt)
    ensures r.Ok? && Consistent(found.value) ==> Consistent(r.value)
  {
    match found
    case None => Err(ValueError(TaskNotFound))
    case Some(t) =>
      if t.assignedToDev != Some(email) then Err(PermissionError(NotAssignedToDeveloper))
      else Ok(t.(devStatus := Some(p.devStatus), updatedAt := now))
  }

  /** The remark prefix a developer's entries carry: role, email and the ISO time of the append. */
  function DevTag(email: string, iso: string): string {
    "DEV (" + email + ") [" + iso + "]: "
  }

  function TesterTag(email: string, iso: string): string {
    "TESTER (" + email + ") [" + iso + "]: "
  }

  /** Each remark prefixed with the tag, in input order. */
  function Tagged(tag: string, remarks: seq<string>): (r: seq<string>)
    ensures |r| == |remarks|
    ensures forall j :: 0 <= j < |r| ==> r[j] == tag + remarks[j]
  {
    if remarks == [] then [] else [tag + remarks[0]] + Tagged(tag, remarks[1..])
  }

  /** Tagging loses nothing: dropping the tag gives back each remark. */
  lemma {:induction false} TaggedRecoversRemarks(tag: string, remarks: seq<string>)
    ensures forall j :: 0 <= j < |remarks| ==> Tagged(tag, remarks)[j][|tag|..] == remarks[j]
  {
    forall j | 0 <= j < |remarks|
      ensures Tagged(tag, remarks)[j][|tag|..] == remarks[j]
    {
      assert Tagged(tag, remarks)[j] == tag + remarks[j];
    }
  }

  /** A developer's entry can never be mistaken for a tester's. */
  lemma TagsNameTheirAuthor(e1: string, i1: string, r1: string, e2: string, i2: string, r2: string)
    ensures DevTag(e1, i1) + r1 != TesterTag(e2, i2) + r2
  {
    assert (DevTag(e1, i1) + r1)[0] == 'D';
    assert (TesterTag(e2, i2) + r2)[0] == 'T';
  }

  /** `append_dev_remarks`: only the assigned developer; tagged entries go after the existing ones. */
  function WithDevRemarks(found: Option<Task>, email: string, p: TaskAppendRemarks, now: int, iso: string): (r: Result<Task>)
    ensures found.None? ==> r == Err(ValueError(TaskNotFound))
    ensures found.Some? && found.value.assignedToDev != Some(email) ==>
      r == Err(PermissionError(NotAssignedToDeveloper))
    ensures r.Ok? <==> found.Some? && found.value.assignedToDev == Some(email)
    ensures r.Ok? ==>
      |r.value.remarks| == |found.value.remarks| + |p.remarks| &&
      r.value.remarks[..|found.value.remarks|] == found.value.remarks &&
      forall j :: 0 <= j < |p.remarks| ==>
        r.value.remarks[|found.value.remarks| + j] == DevTag(email, iso) + p.remarks[j]
    ensures r.Ok? ==> r.value == found.value.(remarks := r.value.remarks, updatedAt := now)
    ensures r.Ok? && Consistent(found.value) ==> Consistent(r.value)
  {
    match found
    case None => Err(ValueError(TaskNotFound))
    case Some(t) =>
      if t.assignedToDev != Some(email) then Err(PermissionError(NotAssignedToDeveloper))
      else Ok(t.(remarks := t.remarks + Tagged(DevTag(email, iso), p.remarks), updatedAt := now))
  }

  // ----- tester -------------------------------------------------------------------

  /**
   * `update_tester_status`: checked in the order not found, not the assigned
   * tester, developer not completed; on success the tester status is set and
   * the remarks replaced exactly when a list is supplied.
   */
  function SetTesterStatus(found: Option<Task>, email: string, p: TaskUpdateTester, now: int): (r: Result<Task>)
    ensures found.None? ==> r == Err(ValueError(TaskNotFound))
    ensures found.Some? && found.value.assignedToTester != Some(email) ==>
      r == Err(PermissionError(NotAssignedToTester))
    ensures found.Some? && found.value.assignedToTester == Some(email) && found.value.devStatus != Some(Completed) ==>
      r == Err(PermissionError(DeveloperMustComplete))
    ensures r.Ok? <==>
      found.Some? && found.value.assignedToTester == Some(email) && found.value.devStatus == Some(Completed)
    ensures r.Ok? ==>
      r.value.testerStatus == Some(p.testerStatus) && r.value.updatedAt == now &&
      r.value.remarks == (if p.remarks.Some? then p.remarks.value else found.value.remarks)
    ensures r.Ok? ==>
      r.value == found.value.(testerStatus := r.value.testerStatus, remarks := r.value.remarks,
                              updatedAt := r.value.updatedAt)
    ensures r.Ok? && Consistent(found.value) ==> Consistent(r.value)
  {
    match found
    case None => Err(ValueError(TaskNotFound))
    case Some(t) =>
      if t.assignedToTester != Some(email) then Err(PermissionError(NotAssignedToTester))
      else if t.devStatus != Some(Completed) then Err(PermissionError(DeveloperMustComplete))
      else
        Ok(t.(testerStatus := Some(p.testerStatus),
              remarks := if p.remarks.Some? then p.remarks.value else t.remarks,
              updatedAt := now))
  }

  /** `append_tester_remarks`: only the assigned tester; tagged entries go after the existing ones. */
  function WithTesterRemarks(found: Option<Task>, email: string, p: TaskAppendRemarks, now: int, iso: string): (r: Result<Task>)
    ensures found.None? ==> r == Err(ValueError(TaskNotFound))
    ensures found.Some? && found.value.assignedToTester != Some(email) ==>
      r == Err(PermissionError(NotAssignedToTester))
    ensures r.Ok? <==> found.Some? && found.value.assignedToTester == Some(email)
    ensures r.Ok? ==>
      |r.value.remarks| == |found.value.remarks| + |p.remarks| &&
      r.value.remarks[..|found.value.remarks|] == found.value.remarks &&
      forall j :: 0 <= j < |p.remarks| ==>
        r.value.remarks[|found.value.remarks| + j] == TesterTag(email, iso) + p.remarks[j]
    ensures r.Ok? ==> r.value == found.value.(remarks := r.value.remarks, updatedAt := now)
    ensures r.Ok? && Consistent(found.value) ==> Consistent(r.value)
  {
    match found
    case None => Err(ValueError(TaskNotFound))
    case Some(t) =>
      if t.assignedToTester != Some(email) then Err(PermissionError(NotAssignedToTester))
      else Ok(t.(remarks := t.remarks + Tagged(TesterTag(email, iso), p.remarks), updatedAt := now))
  }

  // ----- workflow properties --------------------------------------------------------

  /** An assigned developer can move from any status to any status. */
  lemma AnyDevStatusReachable(t: Task, email: string, from: DevStatus, to: DevStatus, now: int)
    requires t.assignedToDev == Some(email) && t.devStatus == Some(from)
    ensures SetDevStatus(Some(t), email, TaskUpdateDeveloper(to), now).Ok?
    ensures SetDevStatus(Some(t), email, TaskUpdateDeveloper(to), now).value.devStatus == Some(to)
  {
  }

  /** Whatever status a tester asks for, it is refused while the developer has not completed. */
  lemma TesterWaitsForDeveloper(t: Task, email: string, p: TaskUpdateTester, now: int)
    requires t.devStatus != Some(Completed)
    ensures SetTesterStatus(Some(t), email, p, now).Err?
    ensures SetTesterStatus(Some(t), email, p, now).failure.PermissionError?
  {
  }

  /**
   * Reassigning a side that already has a status keeps that status, on each
   * side separately, through assign and through the admin update alike.
   */
  lemma ReassignmentKeepsStatus(t: Task, dev: Option<string>, tester: Option<string>, p: TaskUpdateAdmin, now: int)
    ensures t.devStatus.Some? ==> Assign(Some(t), dev, tester, now).value.devStatus == t.devStatus
    ensures t.testerStatus.Some? ==> Assign(Some(t), dev, tester, now).value.testerStatus == t.testerStatus
    ensures t.devStatus.Some? ==> AdminUpdate(Some(t), p, now).value.devStatus == t.devStatus
    ensures t.testerStatus.Some? ==> AdminUpdate(Some(t), p, now).value.testerStatus == t.testerStatus
  {
  }

  /** Remarks from a developer and then a tester stay in insertion order, nothing dropped or reordered. */
  lemma RemarksKeepInsertionOrder(t: Task, dev: string, tester: string, a: TaskAppendRemarks,
                                  b: TaskAppendRemarks, now: int, iso: string)
    requires t.assignedToDev == Some(dev) && t.assignedToTester == Some(tester)
    ensures
      var first := WithDevRemarks(Some(t), dev, a, now, iso);
      first.Ok? &&
      var second := WithTesterRemarks(Some(first.value), tester, b, now, iso);
      second.Ok? &&
      second.value.remarks == t.remarks + Tagged(DevTag(dev, iso), a.remarks) + Tagged(TesterTag(tester, iso), b.remarks)
  {
  }

  /**
   * The life of one task: created unassigned, a developer assigned, the
   * tester refused until the developer completes, then accepted.
   */
  lemma Scenario(d: TaskCreate)
    requires d.assignedToDev.None? && d.assignedToTester.None?
    ensures
      var t0 := NewTask(d, 0);
      t0.devStatus.None? && t0.testerStatus.None? &&
      var t1 := Assign(Some(t0), Some("dev@x.com"), None, 1).value;
      t1.devStatus == Some(DevPending) &&
      var t2 := Assign(Some(t1), None, Some("qa@x.com"), 2).value;
      t2.testerStatus == Some(TestPending) &&
      SetTesterStatus(Some(t2), "qa@x.com", TaskUpdateTester(Tested, None), 3) ==
        Err(PermissionError(DeveloperMustComplete)) &&
      var t3 := SetDevStatus(Some(t2), "dev@x.com", TaskUpdateDeveloper(Completed), 4).value;
      SetTesterStatus(Some(t3), "qa@x.com", TaskUpdateTester(Tested, None), 5).value.testerStatus == Some(Tested)
  {
  }
}
