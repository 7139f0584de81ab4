/**
 * The project endpoints: create, update and delete are open to admins and
 * managers only and refuse anyone else with a reply rather than an HTTP
 * error; get and list are open to every authenticated caller.
 */
module ProjectRoutes {
  import opened Common
  import opened TaskSchema
  import opened ProjectSchema
  import opened TaskService
  import opened ProjectService

  const NotAuthorized := "Not authorized"

  /** `check_role` with its default allowed roles. */
  function CheckRole(role: string): (allowed: bool)
    ensures allowed <==> ParseRole(role) == Some(Admin) || ParseRole(role) == Some(Manager)
  {
    role in [RoleName(Admin), RoleName(Manager)]
  }

  /** Unlike task deletion, which is for admins alone, a manager may delete a project. */
  lemma ManagerMayDeleteProjects()
    ensures CheckRole(RoleName(Manager))
    ensures !CheckRole(RoleName(Developer)) && !CheckRole(RoleName(Tester))
    ensures !CheckRole("") && !CheckRole("Admin")
  {
  }

  /** `creates_project`: the creator recorded is the token's user id. */
  method CreatesProject(store: ProjectStore, caller: Caller, data: ProjectCreate, now: int, fault: bool)
    returns (r: Reply<ProjectView>)
    requires store.Valid()
    modifies store
    ensures store.Valid()
    ensures !CheckRole(caller.role) ==>
      r == Failure(NotAuthorized) && store.projects == old(store.projects) && store.nextId == old(store.nextId)
    ensures CheckRole(caller.role) ==> (r.Success? <==> !fault && !NameTaken(old(store.projects), data.name))
    ensures CheckRole(caller.role) && fault ==> r == Failure(InternalError)
    ensures CheckRole(caller.role) && !fault && NameTaken(old(store.projects), data.name) ==>
      r == Failure(DuplicateName)
    ensures CheckRole(caller.role) && r.Success? ==>
      r.data.project == NewProject(caller.userId, data, now) && r.data.project.createdBy == caller.userId &&
      r.data.tasks == [] && r.data.id !in old(store.projects) &&
      store.projects == old(store.projects)[r.data.id := r.data.project]
    ensures CheckRole(caller.role) && r.Failure? ==> store.projects == old(store.projects)
    ensures NamesDistinct(old(store.projects)) ==> NamesDistinct(store.projects)
  {
    if !CheckRole(caller.role) {
      return Failure(NotAuthorized);
    }
    r := store.CreateProject(caller.userId, data, now, fault);
  }

  /** `updates_project`: admin or manager only. */
  method UpdatesProject(store: ProjectStore, taskStore: TaskStore, caller: Caller, id: Id, u: ProjectUpdate,
                        now: int, fault: bool)
    returns (r: Reply<ProjectView>)
    requires store.Valid() && taskStore.Valid()
    modifies store
    ensures store.Valid()
    ensures !CheckRole(caller.role) ==> r == Failure(NotAuthorized) && store.projects == old(store.projects)
    ensures CheckRole(caller.role) ==> (r.Success? <==> !fault && id in old(store.projects))
    ensures CheckRole(caller.role) && fault ==> r == Failure(InternalError)
    ensures CheckRole(caller.role) && !fault && id !in old(store.projects) ==> r == Failure(ProjectNotFound)
    ensures r.Failure? ==> store.projects == old(store.projects)
    ensures CheckRole(caller.role) && r.Success? ==>
      store.projects == old(store.projects)[id := ApplyProjectUpdate(old(store.projects)[id], u, now)] &&
      r.data.id == id && r.data.project == store.projects[id] && IsTaskPage(taskStore.tasks, id, r.data.tasks)
  {
    if !CheckRole(caller.role) {
      return Failure(NotAuthorized);
    }
    r := store.UpdateProject(id, u, taskStore, now, fault);
  }

  /** `gets_project`: no role check. */
  method GetsProject(store: ProjectStore, taskStore: TaskStore, caller: Caller, id: Id, fault: bool)
    returns (r: Reply<ProjectView>)
    requires taskStore.Valid()
    ensures r.Success? <==> !fault && id in store.projects
    ensures r.Success? ==>
      r.data.id == id && r.data.project == store.projects[id] && IsTaskPage(taskStore.tasks, id, r.data.tasks)
    ensures fault ==> r == Failure(InternalError)
    ensures !fault && id !in store.projects ==> r == Failure(ProjectNotFound)
  {
    r := store.GetProject(id, taskStore, fault);
  }

  /** `lists_projects`: no role check. */
  method ListsProjects(store: ProjectStore, taskStore: TaskStore, caller: Caller, fault: bool)
    returns (r: Reply<seq<ProjectView>>)
    requires store.Valid() && taskStore.Valid()
    ensures r.Success? <==> !fault
    ensures fault ==> r == Failure(InternalError)
    ensures r.Success? ==> |r.data| == Min(ProjectListCap, |store.projects|)
    ensures r.Success? ==> forall k :: 0 <= k < |r.data| ==>
      r.data[k].id in store.projects && r.data[k].project == store.projects[r.data[k].id] &&
      IsTaskPage(taskStore.tasks, r.data[k].id, r.data[k].tasks)
    ensures r.Success? ==> forall a, b :: 0 <= a < b < |r.data| ==> r.data[a].id < r.data[b].id
    ensures r.Success? ==> forall id, k :: id in store.projects && id !in ListedIds(r.data) && 0 <= k < |r.data| ==>
      r.data[k].id < id
  {
    r := store.ListProjects(taskStore, fault);
  }

  /** `deletes_project`: admin or manager; the project's tasks go with it. */
  method DeletesProject(store: ProjectStore, taskStore: TaskStore, caller: Caller, id: Id, fault: bool)
    returns (r: Reply<string>)
    requires store.Valid() && taskStore.Valid()
    modifies store, taskStore
    ensures store.Valid() && taskStore.Valid()
    ensures !CheckRole(caller.role) ==>
      r == Failure(NotAuthorized) && store.projects == old(store.projects) && taskStore.tasks == old(taskStore.tasks)
    ensures CheckRole(caller.role) ==> (r.Success? <==> !fault && id in old(store.projects))
    ensures CheckRole(caller.role) && fault ==> r == Failure(InternalError)
    ensures CheckRole(caller.role) && !fault && id !in old(store.projects) ==> r == Failure(ProjectNotFound)
    ensures CheckRole(caller.role) && r.Success? ==>
      r.data == ProjectDeleted && store.projects == old(store.projects) - {id} &&
      (forall t :: t in taskStore.tasks <==> t in old(taskStore.tasks) && old(taskStore.tasks)[t].projectId != id) &&
      (forall t :: t in taskStore.tasks ==> taskStore.tasks[t] == old(taskStore.tasks)[t])
    ensures r.Failure? ==> store.projects == old(store.projects) && taskStore.tasks == old(taskStore.tasks)
  {
    if !CheckRole(caller.role) {
      return Failure(NotAuthorized);
    }
    r := store.DeleteProject(id, taskStore, fault);
  }
}
