/**
 * The task endpoints: each handler checks the caller's role, makes one
 * service call and turns the service's failures into HTTP errors
 * (`ValueError` to 404, `PermissionError` to 403 with its message). The
 * request bodies reach the handlers already validated (see TaskSchema).
 */
module TaskRoutes {
  import opened Common
  import opened TaskSchema
  import opened TaskWorkflow
  import opened TaskService

  /** What a handler produces: a body with a status, or a raised `HTTPException`. */
  datatype Response<T> = Respond(status: nat, body: T) | Raise(status: nat, detail: string)

  const StatusOk := 200
  const StatusCreated := 201
  const StatusForbidden := 403
  const StatusNotFound := 404
  /** An exception a handler does not catch. */
  const StatusInternalError := 500

  const TaskDeleted := "Task deleted"

  predicate IsAdminOrManager(role: string) {
    role == RoleName(Admin) || role == RoleName(Manager)
  }

  /**
   * `get_task`'s per-task restriction: a developer must be the task's
   * developer, a tester its tester; any other role is unrestricted.
   */
  predicate ViewAllowed(c: Caller, t: Task) {
    && !(c.role == RoleName(Developer) && t.assignedToDev != Some(c.email))
    && !(c.role == RoleName(Tester) && t.assignedToTester != Some(c.email))
  }

  /** Both `except` clauses of the developer and tester handlers. */
  function FromService(r: Result<TaskView>): (resp: Response<TaskView>)
    ensures r.Ok? <==> resp.Respond?
    ensures r.Ok? ==> resp == Respond(StatusOk, r.value)
    ensures resp.Raise? && resp.status == StatusNotFound <==> r.Err? && r.failure.ValueError?
    ensures resp.Raise? && resp.status == StatusForbidden <==> r.Err? && r.failure.PermissionError?
    ensures resp.Raise? && resp.status == StatusNotFound ==> resp.detail == TaskNotFound
    ensures resp.Raise? && resp.status == StatusForbidden ==> resp.detail == r.failure.message
  {
    match r
    case Ok(v) => Respond(StatusOk, v)
    case Err(ValueError(_)) => Raise(StatusNotFound, TaskNotFound)
    case Err(PermissionError(m)) => Raise(StatusForbidden, m)
  }

  /**
   * The admin handlers catch only `ValueError`; a `PermissionError` would
   * escape as a server error.
   */
  function FromAdminService(r: Result<TaskView>): (resp: Response<TaskView>)
    ensures r.Ok? <==> resp.Respond?
    ensures r.Ok? ==> resp == Respond(StatusOk, r.value)
    ensures r.Err? && r.failure.ValueError? <==> resp == Raise(StatusNotFound, TaskNotFound)
    ensures resp.Raise? && resp.status == StatusInternalError <==> r.Err? && r.failure.PermissionError?
  {
    match r
    case Ok(v) => Respond(StatusOk, v)
    case Err(ValueError(_)) => Raise(StatusNotFound, TaskNotFound)
    case Err(PermissionError(_)) => Raise(StatusInternalError, "Internal Server Error")
  }

  /** The full-update and assign services only ever fail with not-found, so those handlers never answer 500. */
  lemma AdminHandlersNeverFail500(found: Option<Task>, id: Id, p: TaskUpdateAdmin,
                                  developer: Option<string>, tester: Option<string>, now: int)
    ensures FromAdminService(AsView(id, AdminUpdate(found, p, now))).status != StatusInternalError
    ensures FromAdminService(AsView(id, Assign(found, developer, tester, now))).status != StatusInternalError
    ensures found.None? ==> FromAdminService(AsView(id, AdminUpdate(found, p, now))) == Raise(StatusNotFound, TaskNotFound)
  {
    var a := AdminUpdate(found, p, now);
    var b := Assign(found, developer, tester, now);
    assert a.Err? ==> a.failure == ValueError(TaskNotFound);
    assert b.Err? ==> b.failure == ValueError(TaskNotFound);
  }

  /**
   * A tester updating a task whose developer has not completed it gets a
   * 403 carrying the precondition's message, not a 409 or 400.
   */
  lemma TesterBeforeDeveloperIs403(t: Task, id: Id, email: string, p: TaskUpdateTester, now: int)
    requires t.assignedToTester == Some(email) && t.devStatus != Some(Completed)
    ensures FromService(AsView(id, SetTesterStatus(Some(t), email, p, now))) ==
      Raise(StatusForbidden, DeveloperMustComplete)
  {
    assert SetTesterStatus(Some(t), email, p, now) == Err(PermissionError(DeveloperMustComplete));
  }

  /** Admins and managers see any task; a developer or tester exactly the ones assigned to them. */
  lemma ViewRule(c: Caller, t: Task)
    ensures IsAdminOrManager(c.role) ==> ViewAllowed(c, t)
    ensures c.role == RoleName(Developer) ==> (ViewAllowed(c, t) <==> t.assignedToDev == Some(c.email))
    ensures c.role == RoleName(Tester) ==> (ViewAllowed(c, t) <==> t.assignedToTester == Some(c.email))
  {
  }

  // ----- admin / manager --------------------------------------------------------

  /** `create_new_task`: admin or manager only; 201 with the stored task. */
  method CreateNewTask(store: TaskStore, caller: Caller, data: TaskCreate, now: int)
    returns (resp: Response<TaskView>)
    requires store.Valid()
    modifies store
    ensures store.Valid()
    ensures !IsAdminOrManager(caller.role) ==>
      resp == Raise(StatusForbidden, "Not authorized to create tasks") &&
      store.tasks == old(store.tasks) && store.nextId == old(store.nextId)
    ensures IsAdminOrManager(caller.role) ==>
      resp == Respond(StatusCreated, TaskView(old(store.nextId), NewTask(data, now))) &&
      store.tasks == old(store.tasks)[old(store.nextId) := NewTask(data, now)]
  {
    if !IsAdminOrManager(caller.role) {
      return Raise(StatusForbidden, "Not authorized to create tasks");
    }
    var created := store.CreateTask(data, now);
    resp := Respond(StatusCreated, created);
  }

  /**
   * `list_all_tasks`: any of the four roles; the six query filters go to the
   * service as they are, and the service narrows them by role.
   */
  method ListAllTasks(store: TaskStore, caller: Caller, filters: Filters)
    returns (resp: Response<seq<TaskView>>)
    requires store.Valid()
    ensures ParseRole(caller.role).None? <==> resp == Raise(StatusForbidden, "Not authorized")
    ensures resp.Respond? ==> resp.status == StatusOk
    ensures resp.Respond? ==>
      (forall k :: 0 <= k < |resp.body| ==>
         resp.body[k].id in store.tasks && resp.body[k].task == store.tasks[resp.body[k].id] &&
         Admits(filters, caller, resp.body[k].task))
    ensures resp.Respond? ==>
      DistinctIds(resp.body) && NewestFirst(resp.body) &&
      |resp.body| == Min(ListCap, |store.VisibleIds(filters, caller)|)
    ensures resp.Respond? ==> forall id :: id in store.VisibleIds(filters, caller) && id !in IdsOf(resp.body) ==>
      forall k :: 0 <= k < |resp.body| ==> store.tasks[id].createdAt <= resp.body[k].task.createdAt
  {
    if ParseRole(caller.role).None? {
      return Raise(StatusForbidden, "Not authorized");
    }
    var tasks := store.GetAllTasks(filters, caller);
    resp := Respond(StatusOk, tasks);
  }

  /** `get_task`: 404 when missing, then the per-role view restriction. */
  method GetTask(store: TaskStore, caller: Caller, id: Id) returns (resp: Response<TaskView>)
    ensures id !in store.tasks ==> resp == Raise(StatusNotFound, TaskNotFound)
    ensures id in store.tasks && !ViewAllowed(caller, store.tasks[id]) ==>
      resp == Raise(StatusForbidden, "Not authorized to access this task")
    ensures id in store.tasks && ViewAllowed(caller, store.tasks[id]) ==>
      resp == Respond(StatusOk, TaskView(id, store.tasks[id]))
  {
    var found := store.GetTaskById(id);
    if found.None? {
      return Raise(StatusNotFound, TaskNotFound);
    }
    var task := found.value.task;
    if caller.role == RoleName(Developer) && task.assignedToDev != Some(caller.email) {
      return Raise(StatusForbidden, "Not authorized to access this task");
    }
    if caller.role == RoleName(Tester) && task.assignedToTester != Some(caller.email) {
      return Raise(StatusForbidden, "Not authorized to access this task");
    }
    resp := Respond(StatusOk, found.value);
  }

  /** `update_existing_task_admin`: admin or manager only; not-found becomes 404. */
  method UpdateExistingTaskAdmin(store: TaskStore, caller: Caller, id: Id, payload: TaskUpdateAdmin, now: int)
    returns (resp: Response<TaskView>)
    requires store.Valid()
    modifies store
    ensures store.Valid() && store.nextId == old(store.nextId)
    ensures !IsAdminOrManager(caller.role) ==>
      resp == Raise(StatusForbidden, "Not authorized to perform full update") && store.tasks == old(store.tasks)
    ensures IsAdminOrManager(caller.role) ==>
      resp == FromAdminService(AsView(id, AdminUpdate(Lookup(old(store.tasks), id), payload, now))) &&
      store.tasks == Stored(old(store.tasks), id, AdminUpdate(Lookup(old(store.tasks), id), payload, now))
  {
    if !IsAdminOrManager(caller.role) {
      return Raise(StatusForbidden, "Not authorized to perform full update");
    }
    var r := store.UpdateTaskAdmin(id, payload, now);
    resp := FromAdminService(r);
  }

  /** `assign_task_route`: admin or manager only; not-found becomes 404. */
  method AssignTaskRoute(store: TaskStore, caller: Caller, id: Id, developer: Option<string>,
                         tester: Option<string>, now: int)
    returns (resp: Response<TaskView>)
    requires store.Valid()
    modifies store
    ensures store.Valid() && store.nextId == old(store.nextId)
    ensures !IsAdminOrManager(caller.role) ==>
      resp == Raise(StatusForbidden, "Not authorized to assign tasks") && store.tasks == old(store.tasks)
    ensures IsAdminOrManager(caller.role) ==>
      resp == FromAdminService(AsView(id, Assign(Lookup(old(store.tasks), id), developer, tester, now))) &&
      store.tasks == Stored(old(store.tasks), id, Assign(Lookup(old(store.tasks), id), developer, tester, now))
  {
    if !IsAdminOrManager(caller.role) {
      return Raise(StatusForbidden, "Not authorized to assign tasks");
    }
    var r := store.AssignTask(id, developer, tester, now);
    resp := FromAdminService(r);
  }

  /** `delete_existing_task`: the role `admin` only (a manager is refused). */
  method DeleteExistingTask(store: TaskStore, caller: Caller, id: Id) returns (resp: Response<string>)
    requires store.Valid()
    modifies store
    ensures store.Valid() && store.nextId == old(store.nextId)
    ensures caller.role != RoleName(Admin) ==>
      resp == Raise(StatusForbidden, "Not authorized to delete tasks") && store.tasks == old(store.tasks)
    ensures caller.role == RoleName(Admin) && id !in old(store.tasks) ==>
      resp == Raise(StatusNotFound, "Task not found or deletion failed") && store.tasks == old(store.tasks)
    ensures caller.role == RoleName(Admin) && id in old(store.tasks) ==>
      resp == Respond(StatusOk, TaskDeleted) && store.tasks == old(store.tasks) - {id}
  {
    if caller.role != RoleName(Admin) {
      return Raise(StatusForbidden, "Not authorized to delete tasks");
    }
    var success := store.DeleteTask(id);
    if !success {
      return Raise(StatusNotFound, "Task not found or deletion failed");
    }
    resp := Respond(StatusOk, TaskDeleted);
  }

  // ----- developer ----------------------------------------------------------------

  /** `get_my_tasks_route`: developers only; their own tasks, newest first. */
  method GetMyTasksRoute(store: TaskStore, caller: Caller) returns (resp: Response<seq<TaskView>>)
    requires store.Valid()
    ensures caller.role != RoleName(Developer) <==> resp == Raise(StatusForbidden, "Not a developer")
    ensures resp.Respond? ==> resp.status == StatusOk
    ensures resp.Respond? ==>
      (forall k :: 0 <= k < |resp.body| ==>
         resp.body[k].id in store.tasks && resp.body[k].task == store.tasks[resp.body[k].id] &&
         resp.body[k].task.assignedToDev == Some(caller.email))
    ensures resp.Respond? ==>
      DistinctIds(resp.body) && NewestFirst(resp.body) &&
      |resp.body| == Min(ListCap, |store.VisibleIds(NoFilters, caller)|)
    ensures resp.Respond? ==> forall id :: id in store.VisibleIds(NoFilters, caller) && id !in IdsOf(resp.body) ==>
      forall k :: 0 <= k < |resp.body| ==> store.tasks[id].createdAt <= resp.body[k].task.createdAt
  {
    if caller.role != RoleName(Developer) {
      return Raise(StatusForbidden, "Not a developer");
    }
    var tasks := store.GetMyTasks(caller, NoFilters);
    resp := Respond(StatusOk, tasks);
  }

  /** `update_dev_status_route`: developers only, checked before the service runs. */
  method UpdateDevStatusRoute(store: TaskStore, caller: Caller, id: Id, payload: TaskUpdateDeveloper, now: int)
    returns (resp: Response<TaskView>)
    requires store.Valid()
    modifies store
    ensures store.Valid() && store.nextId == old(store.nextId)
    ensures caller.role != RoleName(Developer) ==>
      resp == Raise(StatusForbidden, "Not a developer") && store.tasks == old(store.tasks)
    ensures caller.role == RoleName(Developer) ==>
      resp == FromService(AsView(id, SetDevStatus(Lookup(old(store.tasks), id), caller.email, payload, now))) &&
      store.tasks == Stored(old(store.tasks), id, SetDevStatus(Lookup(old(store.tasks), id), caller.email, payload, now))
  {
    if caller.role != RoleName(Developer) {
      return Raise(StatusForbidden, "Not a developer");
    }
    var r := store.UpdateDevStatus(id, caller.email, payload, now);
    resp := FromService(r);
  }

  /** `append_dev_remarks_route`: developers only. */
  method AppendDevRemarksRoute(store: TaskStore, caller: Caller, id: Id, payload: TaskAppendRemarks,
                               now: int, iso: string)
    returns (resp: Response<TaskView>)
    requires store.Valid()
    modifies store
    ensures store.Valid() && store.nextId == old(store.nextId)
    ensures caller.role != RoleName(Developer) ==>
      resp == Raise(StatusForbidden, "Not a developer") && store.tasks == old(store.tasks)
    ensures caller.role == RoleName(Developer) ==>
      resp == FromService(AsView(id, WithDevRemarks(Lookup(old(store.tasks), id), caller.email, payload, now, iso))) &&
      store.tasks == Stored(old(store.tasks), id, WithDevRemarks(Lookup(old(store.tasks), id), caller.email, payload, now, iso))
  {
    if caller.role != RoleName(Developer) {
      return Raise(StatusForbidden, "Not a developer");
    }
    var r := store.AppendDevRemarks(id, caller.email, payload, now, iso);
    resp := FromService(r);
  }

  // ----- tester -------------------------------------------------------------------

  /** `get_my_testing_tasks`: testers only; their own tasks, newest first. */
  method GetMyTestingTasks(store: TaskStore, caller: Caller) returns (resp: Response<seq<TaskView>>)
    requires store.Valid()
    ensures caller.role != RoleName(Tester) <==> resp == Raise(StatusForbidden, "Not a tester")
    ensures resp.Respond? ==> resp.status == StatusOk
    ensures resp.Respond? ==>
      (forall k :: 0 <= k < |resp.body| ==>
         resp.body[k].id in store.tasks && resp.body[k].task == store.tasks[resp.body[k].id] &&
         resp.body[k].task.assignedToTester == Some(caller.email))
    ensures resp.Respond? ==>
      DistinctIds(resp.body) && NewestFirst(resp.body) &&
      |resp.body| == Min(ListCap, |store.VisibleIds(NoFilters, caller)|)
    ensures resp.Respond? ==> forall id :: id in store.VisibleIds(NoFilters, caller) && id !in IdsOf(resp.body) ==>
      forall k :: 0 <= k < |resp.body| ==> store.tasks[id].createdAt <= resp.body[k].task.createdAt
  {
    if caller.role != RoleName(Tester) {
      return Raise(StatusForbidden, "Not a tester");
    }
    var tasks := store.GetMyTasks(caller, NoFilters);
    resp := Respond(StatusOk, tasks);
  }

  /** `update_test_status_route`: testers only; the developer-must-complete refusal is a 403. */
  method UpdateTestStatusRoute(store: TaskStore, caller: Caller, id: Id, payload: TaskUpdateTester, now: int)
    returns (resp: Response<TaskView>)
    requires store.Valid()
    modifies store
    ensures store.Valid() && store.nextId == old(store.nextId)
    ensures caller.role != RoleName(Tester) ==>
      resp == Raise(StatusForbidden, "Not a tester") && store.tasks == old(store.tasks)
    ensures caller.role == RoleName(Tester) ==>
      resp == FromService(AsView(id, SetTesterStatus(Lookup(old(store.tasks), id), caller.email, payload, now))) &&
      store.tasks == Stored(old(store.tasks), id, SetTesterStatus(Lookup(old(store.tasks), id), caller.email, payload, now))
  {
    if caller.role != RoleName(Tester) {
      return Raise(StatusForbidden, "Not a tester");
    }
    var r := store.UpdateTesterStatus(id, caller.email, payload, now);
    resp := FromService(r);
  }

  /** `append_test_remarks_route`: testers only. */
  method AppendTestRemarksRoute(store: TaskStore, caller: Caller, id: Id, payload: TaskAppendRemarks,
                                now: int, iso: string)
    returns (resp: Response<TaskView>)
    requires store.Valid()
    modifies store
    ensures store.Valid() && store.nextId == old(store.nextId)
    ensures caller.role != RoleName(Tester) ==>
      resp == Raise(StatusForbidden, "Not a tester") && store.tasks == old(store.tasks)
    ensures caller.role == RoleName(Tester) ==>
      resp == FromService(AsView(id, WithTesterRemarks(Lookup(old(store.tasks), id), caller.email, payload, now, iso))) &&
      store.tasks == Stored(old(store.tasks), id, WithTesterRemarks(Lookup(old(store.tasks), id), caller.email, payload, now, iso))
  {
    if caller.role != RoleName(Tester) {
      return Raise(StatusForbidden, "Not a tester");
    }
    var r := store.AppendTesterRemarks(id, caller.email, payload, now, iso);
    resp := FromService(r);
  }
}
