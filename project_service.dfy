/**
 * The project store: projects keyed by id, with a case-insensitive name
 * check on create and a cascade over the task store on delete. A project's
 * tasks are the tasks whose `project_id` is the project's id. `fault`
 * stands for the document store raising before anything is written.
 */
module ProjectService {
  import opened Common
  import opened ProjectSchema
  import opened TaskWorkflow
  import opened TaskService

  /** At most this many projects per listing, and this many tasks per project. */
  const ProjectListCap := 100
  const ProjectTaskCap := 100

  const DuplicateName := "Project with this name already exists"
  const ProjectNotFound := "Project not found"
  const InternalError := "Internal server error"
  const ProjectDeleted := "Project and its tasks deleted successfully"

  datatype Project = Project(
    name: string,
    description: Option<string>,
    status: ProjectStatus,
    createdBy: string,
    createdAt: int,
    updatedAt: int)

  /** A project as returned: its fields, its id and its first tasks. */
  datatype ProjectView = ProjectView(id: Id, project: Project, tasks: seq<TaskView>)

  /** `{"success": False, "message": ...}` or `{"success": True, ...}`. */
  datatype Reply<T> = Failure(message: string) | Success(data: T)

  // ----- names --------------------------------------------------------------------

  function LowerChar(c: char): char {
    if 'A' <= c <= 'Z' then (c as int + 32) as char else c
  }

  /** Two names that a case-insensitive whole-string match treats as one. */
  predicate SameNameIgnoringCase(a: string, b: string) {
    |a| == |b| && forall i :: 0 <= i < |a| ==> LowerChar(a[i]) == LowerChar(b[i])
  }

  /** No two stored projects share a name up to case. */
  predicate NamesDistinct(projects: map<Id, Project>) {
    forall a, b :: a in projects && b in projects && a != b ==>
      !SameNameIgnoringCase(projects[a].name, projects[b].name)
  }

  predicate NameTaken(projects: map<Id, Project>, name: string) {
    exists id :: id in projects && SameNameIgnoringCase(projects[id].name, name)
  }

  lemma SameNameIsSymmetric(a: string, b: string)
    ensures SameNameIgnoringCase(a, b) <==> SameNameIgnoringCase(b, a)
  {
  }

  /** Two characters that are equal, or the upper- and lower-case form of one ASCII letter. */
  predicate CaseVariants(c: char, d: char) {
    || c == d
    || ('A' <= c <= 'Z' && d as int == c as int + 32)
    || ('A' <= d <= 'Z' && c as int == d as int + 32)
  }

  lemma LowerCharAgrees(c: char, d: char)
    ensures LowerChar(c) == LowerChar(d) <==> CaseVariants(c, d)
  {
  }

  /**
   * Only letter case is ignored: two names clash exactly when they have the
   * same length and each pair of characters is equal or differs in case alone.
   */
  lemma CaseIsTheOnlyDifferenceIgnored(a: string, b: string)
    ensures SameNameIgnoringCase(a, b) <==>
      |a| == |b| && forall i :: 0 <= i < |a| ==> CaseVariants(a[i], b[i])
  {
    forall i | 0 <= i < |a| && i < |b| {
      LowerCharAgrees(a[i], b[i]);
    }
  }

  // ----- records ------------------------------------------------------------------

  /** The document `create_project` inserts. */
  function NewProject(userId: string, data: ProjectCreate, now: int): (p: Project)
    ensures p.name == data.name && p.description == data.description && p.status == data.status
    ensures p.createdBy == userId && p.createdAt == now && p.updatedAt == now
  {
    Project(data.name, data.description, data.status, userId, now, now)
  }

  /** `$set` of the given fields and `updated_at`. */
  function ApplyProjectUpdate(p: Project, u: ProjectUpdate, now: int): (r: Project)
    ensures r.name == u.name.GetOr(p.name)
    ensures r.description == (if u.description.Some? then u.description else p.description)
    ensures r.status == u.status.GetOr(p.status)
    ensures r.createdBy == p.createdBy && r.createdAt == p.createdAt && r.updatedAt == now
  {
    p.(name := u.name.GetOr(p.name),
       description := if u.description.Some? then u.description else p.description,
       status := u.status.GetOr(p.status),
       updatedAt := now)
  }

  /** The task query `{"project_id": id}`. */
  function ProjectQuery(id: Id): (q: Query)
    ensures forall t :: Matches(q, t) <==> t.projectId == id
  {
    Query(Some(id), None, None, None, None, None)
  }

  function ProjectTaskIds(tasks: map<Id, Task>, id: Id): set<Id> {
    set t | t in tasks && tasks[t].projectId == id
  }

  /** The first `ProjectTaskCap` tasks of project `id`, in the task store's natural order. */
  predicate IsTaskPage(tasks: map<Id, Task>, id: Id, page: seq<TaskView>) {
    && StoredMatching(tasks, ProjectQuery(id), page)
    && AscendingIds(page)
    && |page| == Min(ProjectTaskCap, |ProjectTaskIds(tasks, id)|)
    && (forall t :: t in ProjectTaskIds(tasks, id) && t !in IdsOf(page) ==>
          forall k :: 0 <= k < |page| ==> page[k].id < t)
  }

  /** `find({"project_id": id}).to_list(100)` on the task store. */
  method TaskPage(taskStore: TaskStore, id: Id) returns (page: seq<TaskView>)
    requires taskStore.Valid()
    ensures IsTaskPage(taskStore.tasks, id, page)
  {
    var q := ProjectQuery(id);
    page := taskStore.FindInOrder(q, ProjectTaskCap);
    assert taskStore.MatchingIds(q) == ProjectTaskIds(taskStore.tasks, id);
  }

  function ListedIds(s: seq<ProjectView>): set<Id> {
    set v | v in s :: v.id
  }

  // ----- listing order --------------------------------------------------------------

  function ProjectsBelow(projects: map<Id, Project>, n: nat): set<Id> {
    set id | id in projects && id < n
  }

  function ProjectIds(s: seq<(Id, Project)>): set<Id> {
    set e | e in s :: e.0
  }

  /** After scanning the ids below `i`: the first `limit` projects in id order. */
  predicate FirstProjects(projects: map<Id, Project>, i: nat, limit: nat, r: seq<(Id, Project)>) {
    && StoredBelow(projects, i, r)
    && AscendingProjectIds(r)
    && |r| == Min(limit, |ProjectsBelow(projects, i)|)
    && (|r| < limit ==> ProjectIds(r) == ProjectsBelow(projects, i))
    && (forall id :: id in ProjectsBelow(projects, i) && id !in ProjectIds(r) ==>
          forall k :: 0 <= k < |r| ==> r[k].0 < id)
  }

  /** Every entry is a stored project with an id below `i`. */
  predicate StoredBelow(projects: map<Id, Project>, i: nat, r: seq<(Id, Project)>) {
    forall k :: 0 <= k < |r| ==> r[k].0 < i && r[k].0 in projects && r[k].1 == projects[r[k].0]
  }

  predicate AscendingProjectIds(r: seq<(Id, Project)>) {
    forall a, b :: 0 <= a < b < |r| ==> r[a].0 < r[b].0
  }

  lemma AppendProject(projects: map<Id, Project>, i: nat, r: seq<(Id, Project)>)
    requires StoredBelow(projects, i, r) && AscendingProjectIds(r) && i in projects
    ensures StoredBelow(projects, i + 1, r + [(i, projects[i])])
    ensures AscendingProjectIds(r + [(i, projects[i])])
  {
    var r' := r + [(i, projects[i])];
    forall k | 0 <= k < |r'| ensures r'[k].0 < i + 1 && r'[k].0 in projects && r'[k].1 == projects[r'[k].0] {
      if k < |r| {
        assert r'[k] == r[k];
      }
    }
    forall a, b | 0 <= a < b < |r'| ensures r'[a].0 < r'[b].0 {
      assert r'[a] == r[a];
      if b < |r| {
        assert r'[b] == r[b];
      }
    }
  }

  lemma ProjectsBelowStep(projects: map<Id, Project>, i: nat)
    ensures i !in ProjectsBelow(projects, i)
    ensures ProjectsBelow(projects, i + 1) ==
      ProjectsBelow(projects, i) + (if i in projects then {i} else {})
  {
  }

  lemma ProjectIdsAppend(r: seq<(Id, Project)>, e: (Id, Project))
    ensures ProjectIds(r + [e]) == ProjectIds(r) + {e.0}
  {
    var s := r + [e];
    forall id | id in ProjectIds(s) ensures id in ProjectIds(r) + {e.0} {
      var x :| x in s && x.0 == id;
    }
    forall id | id in ProjectIds(r) + {e.0} ensures id in ProjectIds(s) {
      if id != e.0 {
        var x :| x in r && x.0 == id;
        assert x in s;
      } else {
        assert e in s;
      }
    }
  }

  /** Appending an entry with a new id adds that id and one to the count. */
  lemma AppendFreshProjectId(r: seq<(Id, Project)>, e: (Id, Project), before: set<Id>)
    requires ProjectIds(r) == before && |r| == |before| && e.0 !in before
    ensures ProjectIds(r + [e]) == before + {e.0} && |r + [e]| == |before + {e.0}|
  {
    ProjectIdsAppend(r, e);
  }

  /** A project found while the page still has room is appended. */
  lemma FirstProjectsTake(projects: map<Id, Project>, i: nat, limit: nat, r: seq<(Id, Project)>)
    requires FirstProjects(projects, i, limit, r)
    requires i in projects && |r| < limit
    ensures FirstProjects(projects, i + 1, limit, r + [(i, projects[i])])
  {
    ProjectsBelowStep(projects, i);
    AppendFreshProjectId(r, (i, projects[i]), ProjectsBelow(projects, i));
    AppendProject(projects, i, r);
  }

  /** Any other id leaves the page as it is. */
  lemma FirstProjectsSkip(projects: map<Id, Project>, i: nat, limit: nat, r: seq<(Id, Project)>)
    requires FirstProjects(projects, i, limit, r)
    requires !(i in projects && |r| < limit)
    ensures FirstProjects(projects, i + 1, limit, r)
  {
    ProjectsBelowStep(projects, i);
    var before := ProjectsBelow(projects, i);
    var after := ProjectsBelow(projects, i + 1);
    forall id | id in after && id !in ProjectIds(r) ensures forall k :: 0 <= k < |r| ==> r[k].0 < id {
      if id != i {
        assert id in before;
      }
    }
    if i in projects {
      assert |after| == |before| + 1;
    } else {
      assert after == before;
    }
  }

  // ----- the store ----------------------------------------------------------------

  class ProjectStore {
    var projects: map<Id, Project>
    /** The id the next insert receives; ids ascend in insertion order. */
    var nextId: Id

    ghost predicate Valid()
      reads this
    {
      forall id :: id in projects ==> id < nextId
    }

    constructor ()
      ensures Valid() && projects == map[] && nextId == 0
    {
      projects := map[];
      nextId := 0;
    }

    /** The duplicate-name lookup: is any stored name equal to `name` up to case? */
    method FindByName(name: string) returns (found: bool)
      requires Valid()
      ensures found <==> NameTaken(projects, name)
    {
      for i := 0 to nextId
        invariant forall id :: id in projects && id < i ==> !SameNameIgnoringCase(projects[id].name, name)
      {
        if i in projects && SameNameIgnoringCase(projects[i].name, name) {
          return true;
        }
      }
      return false;
    }

    /**
     * `create_project`: refused when the name is taken up to case;
     * otherwise stored with the caller as creator, and returned with no tasks.
     */
    method CreateProject(userId: string, data: ProjectCreate, now: int, fault: bool)
      returns (r: Reply<ProjectView>)
      requires Valid()
      modifies this
      ensures Valid()
      ensures fault ==> r == Failure(InternalError)
      ensures !fault && NameTaken(old(projects), data.name) ==> r == Failure(DuplicateName)
      ensures r.Failure? ==> projects == old(projects) && nextId == old(nextId)
      ensures r.Success? <==> !fault && !NameTaken(old(projects), data.name)
      ensures r.Success? ==>
        r.data == ProjectView(old(nextId), NewProject(userId, data, now), []) &&
        old(nextId) !in old(projects) &&
        projects == old(projects)[old(nextId) := NewProject(userId, data, now)]
      ensures NamesDistinct(old(projects)) ==> NamesDistinct(projects)
    {
      if fault {
        return Failure(InternalError);
      }
      var taken := FindByName(data.name);
      if taken {
        return Failure(DuplicateName);
      }
      var doc := NewProject(userId, data, now);
      var id := nextId;
      projects := projects[id := doc];
      nextId := nextId + 1;
      if NamesDistinct(old(projects)) {
        NewNameKeepsNamesDistinct(old(projects), id, doc);
      }
      r := Success(ProjectView(id, doc, []));
    }

    /**
     * `update_project`: "Project not found" for an unknown id; otherwise the
     * given fields and `updated_at` are written (the name is not re-checked)
     * and the project comes back with its first tasks.
     */
    method UpdateProject(id: Id, u: ProjectUpdate, taskStore: TaskStore, now: int, fault: bool)
      returns (r: Reply<ProjectView>)
      requires Valid() && taskStore.Valid()
      modifies this
      ensures Valid() && nextId == old(nextId)
      ensures fault ==> r == Failure(InternalError)
      ensures !fault && id !in old(projects) ==> r == Failure(ProjectNotFound)
      ensures r.Failure? ==> projects == old(projects)
      ensures r.Success? <==> !fault && id in old(projects)
      ensures r.Success? ==>
        projects == old(projects)[id := ApplyProjectUpdate(old(projects)[id], u, now)] &&
        r.data.id == id && r.data.project == projects[id] && IsTaskPage(taskStore.tasks, id, r.data.tasks)
    {
      if fault {
        return Failure(InternalError);
      }
      if id !in projects {
        return Failure(ProjectNotFound);
      }
      projects := projects[id := ApplyProjectUpdate(projects[id], u, now)];
      var page := TaskPage(taskStore, id);
      r := Success(ProjectView(id, projects[id], page));
    }

    /** `get_project`: the project with its first tasks, or "Project not found". */
    method GetProject(id: Id, taskStore: TaskStore, fault: bool) returns (r: Reply<ProjectView>)
      requires taskStore.Valid()
      ensures fault ==> r == Failure(InternalError)
      ensures !fault && id !in projects ==> r == Failure(ProjectNotFound)
      ensures r.Success? <==> !fault && id in projects
      ensures r.Success? ==>
        r.data.id == id && r.data.project == projects[id] && IsTaskPage(taskStore.tasks, id, r.data.tasks)
    {
      if fault {
        return Failure(InternalError);
      }
      if id !in projects {
        return Failure(ProjectNotFound);
      }
      var page := TaskPage(taskStore, id);
      r := Success(ProjectView(id, projects[id], page));
    }

    /** `find().to_list(limit)` on the projects, in natural (id) order. */
    method FirstProjectsInOrder(limit: nat) returns (r: seq<(Id, Project)>)
      requires Valid()
      ensures FirstProjects(projects, nextId, limit, r)
      ensures ProjectsBelow(projects, nextId) == projects.Keys
    {
      r := [];
      for i := 0 to nextId
        invariant FirstProjects(projects, i, limit, r)
      {
        if i in projects && |r| < limit {
          FirstProjectsTake(projects, i, limit, r);
          r := r + [(i, projects[i])];
        } else {
          FirstProjectsSkip(projects, i, limit, r);
        }
      }
    }

    /**
     * `list_projects`: the first 100 projects in natural order, each with its
     * first 100 tasks; no project left out precedes one listed.
     */
    method ListProjects(taskStore: TaskStore, fault: bool) returns (r: Reply<seq<ProjectView>>)
      requires Valid() && taskStore.Valid()
      ensures r.Success? <==> !fault
      ensures fault ==> r == Failure(InternalError)
      ensures r.Success? ==> |r.data| == Min(ProjectListCap, |projects|)
      ensures r.Success? ==> forall k :: 0 <= k < |r.data| ==>
        r.data[k].id in projects && r.data[k].project == projects[r.data[k].id] &&
        IsTaskPage(taskStore.tasks, r.data[k].id, r.data[k].tasks)
      ensures r.Success? ==> forall a, b :: 0 <= a < b < |r.data| ==> r.data[a].id < r.data[b].id
      ensures r.Success? ==> forall id, k :: id in projects && id !in ListedIds(r.data) && 0 <= k < |r.data| ==>
        r.data[k].id < id
    {
      if fault {
        return Failure(InternalError);
      }
      var firsts := FirstProjectsInOrder(ProjectListCap);
      var list: seq<ProjectView> := [];
      for k := 0 to |firsts|
        invariant |list| == k
        invariant forall j :: 0 <= j < k ==>
          list[j].id == firsts[j].0 && list[j].project == firsts[j].1 &&
          IsTaskPage(taskStore.tasks, list[j].id, list[j].tasks)
      {
        var page := TaskPage(taskStore, firsts[k].0);
        list := list + [ProjectView(firsts[k].0, firsts[k].1, page)];
      }
      forall id, k | id in projects && id !in ListedIds(list) && 0 <= k < |list|
        ensures list[k].id < id
      {
        assert id !in ProjectIds(firsts) by {
          forall e | e in firsts ensures e.0 != id {
            var j :| 0 <= j < |firsts| && firsts[j] == e;
            assert list[j] in list;
          }
        }
      }
      r := Success(list);
    }

    /**
     * `delete_project`: "Project not found" for an unknown id, with the
     * tasks untouched; otherwise the project and exactly its tasks go.
     */
    method DeleteProject(id: Id, taskStore: TaskStore, fault: bool) returns (r: Reply<string>)
      requires Valid() && taskStore.Valid()
      modifies this, taskStore
      ensures Valid() && nextId == old(nextId)
      ensures taskStore.Valid() && taskStore.nextId == old(taskStore.nextId)
      ensures fault ==> r == Failure(InternalError)
      ensures !fault && id !in old(projects) ==> r == Failure(ProjectNotFound)
      ensures r.Failure? ==> projects == old(projects) && taskStore.tasks == old(taskStore.tasks)
      ensures r.Success? <==> !fault && id in old(projects)
      ensures r.Success? ==> r.data == ProjectDeleted && projects == old(projects) - {id}
      ensures r.Success? ==> forall t :: t in taskStore.tasks <==>
        t in old(taskStore.tasks) && old(taskStore.tasks)[t].projectId != id
      ensures r.Success? ==> forall t :: t in taskStore.tasks ==> taskStore.tasks[t] == old(taskStore.tasks)[t]
    {
      if fault {
        return Failure(InternalError);
      }
      if id !in projects {
        return Failure(ProjectNotFound);
      }
      projects := projects - {id};
      taskStore.DeleteProjectTasks(id);
      r := Success(ProjectDeleted);
    }
  }

  /** Adding a project under a fresh id with an untaken name keeps names distinct. */
  lemma NewNameKeepsNamesDistinct(projects: map<Id, Project>, id: Id, doc: Project)
    requires id !in projects && !NameTaken(projects, doc.name)
    requires NamesDistinct(projects)
    ensures NamesDistinct(projects[id := doc])
  {
    var after := projects[id := doc];
    forall a, b | a in after && b in after && a != b
      ensures !SameNameIgnoringCase(after[a].name, after[b].name)
    {
      if a == id {
        assert !SameNameIgnoringCase(projects[b].name, doc.name);
        SameNameIsSymmetric(projects[b].name, doc.name);
      } else if b == id {
        assert !SameNameIgnoringCase(projects[a].name, doc.name);
      }
    }
  }

  /** A rename is not checked against the other names: an update can make two names clash. */
  lemma RenameSkipsDuplicateCheck(now: int)
    ensures var before := map[0 := Project("Alpha", None, ProjectActive, "u", 0, 0),
                               1 := Project("Beta", None, ProjectActive, "u", 0, 0)];
      NamesDistinct(before) &&
      !NamesDistinct(before[1 := ApplyProjectUpdate(before[1], ProjectUpdate(Some("ALPHA"), None, None), now)])
  {
    var before := map[0 := Project("Alpha", None, ProjectActive, "u", 0, 0),
                      1 := Project("Beta", None, ProjectActive, "u", 0, 0)];
    var after := before[1 := ApplyProjectUpdate(before[1], ProjectUpdate(Some("ALPHA"), None, None), now)];
    assert !SameNameIgnoringCase("Alpha", "Beta");
    assert !SameNameIgnoringCase("Beta", "Alpha");
    assert SameNameIgnoringCase(after[0].name, after[1].name);
  }
}
