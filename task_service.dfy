/**
 * The task service: a store of task documents keyed by id, with one method
 * per service operation. Each update reads the stored task, builds the
 * `$set` document field by field and writes it back; the resulting record
 * is the one TaskWorkflow prescribes.
 */
module TaskService {
  import opened Common
  import opened TaskSchema
  import opened TaskWorkflow

  /** Maximum number of tasks a listing returns. */
  const ListCap := 500

  // ----- the update document ------------------------------------------------------

  /** A `$set` document: each present field overwrites the stored one. */
  datatype TaskPatch = TaskPatch(
    title: Option<string>,
    description: Option<string>,
    priority: Option<Priority>,
    dueDate: Option<int>,
    assignedToDev: Option<string>,
    assignedToTester: Option<string>,
    devStatus: Option<DevStatus>,
    testerStatus: Option<TesterStatus>,
    remarks: Option<seq<string>>)

  const EmptyPatch := TaskPatch(None, None, None, None, None, None, None, None, None)

  /** `find_one_and_update` with `$set`: the patch's fields and `updated_at`. */
  function ApplyPatch(t: Task, p: TaskPatch, now: int): Task {
    t.(title := p.title.GetOr(t.title),
       description := if p.description.Some? then p.description else t.description,
       priority := p.priority.GetOr(t.priority),
       dueDate := if p.dueDate.Some? then p.dueDate else t.dueDate,
       assignedToDev := if p.assignedToDev.Some? then p.assignedToDev else t.assignedToDev,
       assignedToTester := if p.assignedToTester.Some? then p.assignedToTester else t.assignedToTester,
       devStatus := if p.devStatus.Some? then p.devStatus else t.devStatus,
       testerStatus := if p.testerStatus.Some? then p.testerStatus else t.testerStatus,
       remarks := p.remarks.GetOr(t.remarks),
       updatedAt := now)
  }

  function Lookup(tasks: map<Id, Task>, id: Id): Option<Task> {
    if id in tasks then Some(tasks[id]) else None
  }

  /** The serialized outcome of an operation on the task stored under `id`. */
  function AsView(id: Id, r: Result<Task>): Result<TaskView> {
    match r
    case Ok(t) => Ok(TaskView(id, t))
    case Err(f) => Err(f)
  }

  /** The store after an operation: the new record on success, untouched on failure. */
  function Stored(tasks: map<Id, Task>, id: Id, r: Result<Task>): map<Id, Task> {
    if r.Ok? then tasks[id := r.value] else tasks
  }

  /**
   * The `$set` document an admin update builds: the present payload fields,
   * and a pending status on a side that gets an assignee and has none.
   */
  lemma AdminPatchAgrees(t: Task, p: TaskUpdateAdmin, toSet: TaskPatch, now: int)
    requires toSet.title == p.title && toSet.description == p.description
    requires toSet.priority == p.priority && toSet.dueDate == p.dueDate
    requires toSet.assignedToDev == p.assignedToDev && toSet.assignedToTester == p.assignedToTester
    requires toSet.devStatus == (if p.assignedToDev.Some? && t.devStatus.None? then Some(DevPending) else None)
    requires toSet.testerStatus == (if p.assignedToTester.Some? && t.testerStatus.None? then Some(TestPending) else None)
    requires toSet.remarks.None?
    ensures toSet == EmptyPatch <==> NothingToSet(p)
    ensures toSet == EmptyPatch ==> AdminUpdate(Some(t), p, now) == Ok(t)
    ensures toSet != EmptyPatch ==> AdminUpdate(Some(t), p, now) == Ok(ApplyPatch(t, toSet, now))
  {
  }

  // ----- queries -----------------------------------------------------------------

  /** A task query: each present key must equal the task's field. */
  datatype Query = Query(
    projectId: Option<Id>,
    assignedToDev: Option<string>,
    assignedToTester: Option<string>,
    devStatus: Option<string>,
    testerStatus: Option<string>,
    createdBy: Option<string>)

  /** The six listing filters have the same keys; their values may be missing or empty. */
  type Filters = Query

  const NoFilters: Filters := Query(None, None, None, None, None, None)

  /** The document store's matching of a query against a task. */
  predicate Matches(q: Query, t: Task) {
    && (q.projectId.Some? ==> t.projectId == q.projectId.value)
    && (q.assignedToDev.Some? ==> t.assignedToDev == q.assignedToDev)
    && (q.assignedToTester.Some? ==> t.assignedToTester == q.assignedToTester)
    && (q.devStatus.Some? ==> t.devStatus.Some? && DevStatusName(t.devStatus.value) == q.devStatus.value)
    && (q.testerStatus.Some? ==> t.testerStatus.Some? && TesterStatusName(t.testerStatus.value) == q.testerStatus.value)
    && (q.createdBy.Some? ==> Some(t.createdBy) == q.createdBy)
  }

  /** Reference reading of the filters: every non-empty filter agrees with the task, the rest are ignored. */
  predicate SatisfiesFilters(f: Filters, t: Task) {
    && (f.projectId.Some? ==> t.projectId == f.projectId.value)
    && (Truthy(f.assignedToDev) ==> t.assignedToDev == f.assignedToDev)
    && (Truthy(f.assignedToTester) ==> t.assignedToTester == f.assignedToTester)
    && (Truthy(f.devStatus) ==> t.devStatus.Some? && DevStatusName(t.devStatus.value) == f.devStatus.value)
    && (Truthy(f.testerStatus) ==> t.testerStatus.Some? && TesterStatusName(t.testerStatus.value) == f.testerStatus.value)
    && (Truthy(f.createdBy) ==> Some(t.createdBy) == f.createdBy)
  }

  /** The query keeps exactly the non-empty filter values. */
  predicate KeepsNonEmpty(f: Filters, q: Query) {
    && q.projectId == f.projectId
    && q.assignedToDev == (if Truthy(f.assignedToDev) then f.assignedToDev else None)
    && q.assignedToTester == (if Truthy(f.assignedToTester) then f.assignedToTester else None)
    && q.devStatus == (if Truthy(f.devStatus) then f.devStatus else None)
    && q.testerStatus == (if Truthy(f.testerStatus) then f.testerStatus else None)
    && q.createdBy == (if Truthy(f.createdBy) then f.createdBy else None)
  }

  /**
   * Which tasks a listing shows a caller: a developer (tester) sees only the
   * tasks assigned to them on that side, whatever that side's filter said;
   * the other non-empty filters still apply. Admins and managers see every
   * task the filters admit.
   */
  predicate Admits(f: Filters, c: Caller, t: Task) {
    if c.role == RoleName(Developer) then
      t.assignedToDev == Some(c.email) && SatisfiesFilters(f.(assignedToDev := None), t)
    else if c.role == RoleName(Tester) then
      t.assignedToTester == Some(c.email) && SatisfiesFilters(f.(assignedToTester := None), t)
    else
      SatisfiesFilters(f, t)
  }

  /** `_build_query_from_filters`: copy each filter that is present and non-empty. */
  method BuildQueryFromFilters(filters: Filters) returns (q: Query)
    ensures KeepsNonEmpty(filters, q)
    ensures forall t :: Matches(q, t) <==> SatisfiesFilters(filters, t)
  {
    q := Query(None, None, None, None, None, None);
    if filters.projectId.Some? {
      q := q.(projectId := filters.projectId);
    }
    if Truthy(filters.assignedToDev) {
      q := q.(assignedToDev := filters.assignedToDev);
    }
    if Truthy(filters.assignedToTester) {
      q := q.(assignedToTester := filters.assignedToTester);
    }
    if Truthy(filters.devStatus) {
      q := q.(devStatus := filters.devStatus);
    }
    if Truthy(filters.testerStatus) {
      q := q.(testerStatus := filters.testerStatus);
    }
    if Truthy(filters.createdBy) {
      q := q.(createdBy := filters.createdBy);
    }
  }

  /** A developer's own-side filter makes no difference to what they are shown. */
  lemma OwnSideFilterIsIgnored(f: Filters, c: Caller, t: Task, x: Option<string>)
    ensures c.role == RoleName(Developer) ==> (Admits(f.(assignedToDev := x), c, t) <==> Admits(f, c, t))
    ensures c.role == RoleName(Tester) ==> (Admits(f.(assignedToTester := x), c, t) <==> Admits(f, c, t))
  {
  }

  // ----- ordering of listings --------------------------------------------------------

  function IdsOf(s: seq<TaskView>): set<Id> {
    set v | v in s :: v.id
  }

  predicate NewestFirst(s: seq<TaskView>) {
    forall i, j :: 0 <= i < j < |s| ==> s[i].task.createdAt >= s[j].task.createdAt
  }

  predicate DistinctIds(s: seq<TaskView>) {
    forall i, j :: 0 <= i < j < |s| ==> s[i].id != s[j].id
  }

  /** Insert into a list kept in descending `created_at` order. */
  function InsertNewestFirst(v: TaskView, s: seq<TaskView>): (r: seq<TaskView>)
    ensures |r| == |s| + 1
    ensures forall x :: x in r <==> x == v || x in s
    decreases |s|
  {
    if s == [] || v.task.createdAt >= s[0].task.createdAt then
      [v] + s
    else
      [s[0]] + InsertNewestFirst(v, s[1..])
  }

  lemma {:induction false} InsertKeepsNewestFirst(v: TaskView, s: seq<TaskView>)
    requires NewestFirst(s)
    ensures NewestFirst(InsertNewestFirst(v, s))
    decreases |s|
  {
    if s == [] || v.task.createdAt >= s[0].task.createdAt {
    } else {
      var rest := InsertNewestFirst(v, s[1..]);
      InsertKeepsNewestFirst(v, s[1..]);
      forall j | 0 <= j < |rest| ensures s[0].task.createdAt >= rest[j].task.createdAt {
        assert rest[j] in rest;
        if rest[j] != v {
          var k :| 0 <= k < |s[1..]| && s[1..][k] == rest[j];
        }
      }
      var r := [s[0]] + rest;
      forall a, b | 0 <= a < b < |r| ensures r[a].task.createdAt >= r[b].task.createdAt {
        if a > 0 {
          assert r[a] == rest[a - 1] && r[b] == rest[b - 1];
        }
      }
    }
  }

  lemma {:induction false} InsertKeepsDistinctIds(v: TaskView, s: seq<TaskView>)
    requires DistinctIds(s) && v.id !in IdsOf(s)
    ensures DistinctIds(InsertNewestFirst(v, s))
    decreases |s|
  {
    if s == [] || v.task.createdAt >= s[0].task.createdAt {
      var r := [v] + s;
      forall a, b | 0 <= a < b < |r| ensures r[a].id != r[b].id {
        if a == 0 {
          assert r[b] in s;
        } else {
          assert r[a] == s[a - 1] && r[b] == s[b - 1];
        }
      }
    } else {
      assert s[0] in s;
      assert IdsOf(s[1..]) <= IdsOf(s) by {
        forall x | x in s[1..] ensures x in s { }
      }
      InsertKeepsDistinctIds(v, s[1..]);
      var rest := InsertNewestFirst(v, s[1..]);
      forall j | 0 <= j < |rest| ensures s[0].id != rest[j].id {
        assert rest[j] in rest;
        if rest[j] != v {
          var k :| 0 <= k < |s[1..]| && s[1..][k] == rest[j];
          assert s[k + 1] == rest[j];
        }
      }
      var r := [s[0]] + rest;
      forall a, b | 0 <= a < b < |r| ensures r[a].id != r[b].id {
        if a > 0 {
          assert r[a] == rest[a - 1] && r[b] == rest[b - 1];
        }
      }
    }
  }

  lemma IdsOfInsert(v: TaskView, s: seq<TaskView>)
    ensures IdsOf(InsertNewestFirst(v, s)) == IdsOf(s) + {v.id}
  {
    var r := InsertNewestFirst(v, s);
    forall id | id in IdsOf(r) ensures id in IdsOf(s) + {v.id} {
      var x :| x in r && x.id == id;
    }
    forall id | id in IdsOf(s) + {v.id} ensures id in IdsOf(r) {
      if id != v.id {
        var x :| x in s && x.id == id;
        assert x in r;
      } else {
        assert v in r;
      }
    }
  }

  lemma IdsOfAppend(s: seq<TaskView>, v: TaskView)
    ensures IdsOf(s + [v]) == IdsOf(s) + {v.id}
  {
    var r := s + [v];
    forall id | id in IdsOf(r) ensures id in IdsOf(s) + {v.id} {
      var x :| x in r && x.id == id;
    }
    forall id | id in IdsOf(s) + {v.id} ensures id in IdsOf(r) {
      if id != v.id {
        var x :| x in s && x.id == id;
        assert x in r;
      } else {
        assert v in r;
      }
    }
  }

  /**
   * Cutting a newest-first list after `n` entries: whatever was cut off is
   * no newer than anything kept.
   */
  lemma CutOffIsOlder(acc: seq<TaskView>, n: nat, x: TaskView)
    requires NewestFirst(acc) && n <= |acc| && x in acc && x !in acc[..n]
    ensures forall k :: 0 <= k < n ==> x.task.createdAt <= acc[k].task.createdAt
  {
    var j :| 0 <= j < |acc| && acc[j] == x;
  }

  /** Ids below `n` whose task matches the query. */
  function MatchingBelow(tasks: map<Id, Task>, q: Query, n: nat): set<Id> {
    set id | id in tasks && id < n && Matches(q, tasks[id])
  }

  lemma MatchingBelowStep(tasks: map<Id, Task>, q: Query, i: nat)
    ensures i !in MatchingBelow(tasks, q, i)
    ensures MatchingBelow(tasks, q, i + 1) ==
      MatchingBelow(tasks, q, i) + (if i in tasks && Matches(q, tasks[i]) then {i} else {})
  {
  }

  /** Every entry is the stored record of a task matching `q`. */
  predicate StoredMatching(tasks: map<Id, Task>, q: Query, s: seq<TaskView>) {
    forall x :: x in s ==> x.id in tasks && x.task == tasks[x.id] && Matches(q, x.task)
  }

  /** Ids strictly ascend along the list (the collection's natural order). */
  predicate AscendingIds(s: seq<TaskView>) {
    forall i, j :: 0 <= i < j < |s| ==> s[i].id < s[j].id
  }

  /** After scanning the ids below `i`: every match so far, newest first, each once. */
  predicate CollectedNewestFirst(tasks: map<Id, Task>, q: Query, i: nat, acc: seq<TaskView>) {
    && NewestFirst(acc) && DistinctIds(acc)
    && StoredMatching(tasks, q, acc)
    && IdsOf(acc) == MatchingBelow(tasks, q, i)
    && |acc| == |MatchingBelow(tasks, q, i)|
  }

  lemma CollectNewestFirstStep(tasks: map<Id, Task>, q: Query, i: nat, acc: seq<TaskView>)
    requires CollectedNewestFirst(tasks, q, i, acc)
    ensures CollectedNewestFirst(tasks, q, i + 1,
      if i in tasks && Matches(q, tasks[i]) then InsertNewestFirst(TaskView(i, tasks[i]), acc) else acc)
  {
    MatchingBelowStep(tasks, q, i);
    if i in tasks && Matches(q, tasks[i]) {
      var v := TaskView(i, tasks[i]);
      InsertKeepsNewestFirst(v, acc);
      InsertKeepsDistinctIds(v, acc);
      IdsOfInsert(v, acc);
    }
  }

  /**
   * The first `n` entries of a newest-first list of matches are the `n`
   * newest: whatever was cut off is no newer than anything kept.
   */
  lemma NewestCutIsTopK(tasks: map<Id, Task>, q: Query, acc: seq<TaskView>, n: nat)
    requires NewestFirst(acc) && DistinctIds(acc) && StoredMatching(tasks, q, acc) && n <= |acc|
    ensures NewestFirst(acc[..n]) && DistinctIds(acc[..n]) && StoredMatching(tasks, q, acc[..n])
    ensures forall id :: id in IdsOf(acc) && id !in IdsOf(acc[..n]) ==>
      forall k :: 0 <= k < n ==> tasks[id].createdAt <= acc[k].task.createdAt
  {
    var r := acc[..n];
    forall x | x in r ensures x in acc {
    }
    forall id | id in IdsOf(acc) && id !in IdsOf(r)
      ensures forall k :: 0 <= k < n ==> tasks[id].createdAt <= acc[k].task.createdAt
    {
      var x :| x in acc && x.id == id;
      assert x !in r;
      CutOffIsOlder(acc, n, x);
    }
  }

  /** After scanning the ids below `i`: the first `limit` matches in id order. */
  predicate FirstInIdOrder(tasks: map<Id, Task>, q: Query, i: nat, limit: nat, r: seq<TaskView>) {
    && (forall k :: 0 <= k < |r| ==> r[k].id < i)
    && StoredMatching(tasks, q, r)
    && AscendingIds(r)
    && |r| == Min(limit, |MatchingBelow(tasks, q, i)|)
    && (|r| < limit ==> IdsOf(r) == MatchingBelow(tasks, q, i))
    && (forall id :: id in MatchingBelow(tasks, q, i) && id !in IdsOf(r) ==>
          forall k :: 0 <= k < |r| ==> r[k].id < id)
  }

  lemma FirstInIdOrderStep(tasks: map<Id, Task>, q: Query, i: nat, limit: nat, r: seq<TaskView>)
    requires FirstInIdOrder(tasks, q, i, limit, r)
    ensures FirstInIdOrder(tasks, q, i + 1, limit,
      if i in tasks && Matches(q, tasks[i]) && |r| < limit then r + [TaskView(i, tasks[i])] else r)
  {
    if i in tasks && Matches(q, tasks[i]) && |r| < limit {
      FirstInIdOrderTake(tasks, q, i, limit, r);
    } else {
      FirstInIdOrderSkip(tasks, q, i, limit, r);
    }
  }

  lemma AppendKeepsStoredMatching(tasks: map<Id, Task>, q: Query, r: seq<TaskView>, v: TaskView)
    requires StoredMatching(tasks, q, r)
    requires v.id in tasks && v.task == tasks[v.id] && Matches(q, v.task)
    ensures StoredMatching(tasks, q, r + [v])
  {
    forall x | x in r + [v] ensures x.id in tasks && x.task == tasks[x.id] && Matches(q, x.task) {
      if x != v {
        assert x in r;
      }
    }
  }

  lemma AppendKeepsAscendingIds(r: seq<TaskView>, v: TaskView)
    requires AscendingIds(r) && forall k :: 0 <= k < |r| ==> r[k].id < v.id
    ensures AscendingIds(r + [v])
    ensures forall k :: 0 <= k < |r + [v]| ==> (r + [v])[k].id <= v.id
  {
    var r' := r + [v];
    forall a, b | 0 <= a < b < |r'| ensures r'[a].id < r'[b].id {
      if b < |r| {
        assert r'[a] == r[a] && r'[b] == r[b];
      } else {
        assert r'[a] == r[a];
      }
    }
  }

  /** Appending an entry with a new id adds that id and one to the count. */
  lemma AppendFreshId(r: seq<TaskView>, v: TaskView, before: set<Id>)
    requires IdsOf(r) == before && |r| == |before| && v.id !in before
    ensures IdsOf(r + [v]) == before + {v.id} && |r + [v]| == |before + {v.id}|
  {
    IdsOfAppend(r, v);
  }

  /** A match found while the list still has room is appended. */
  lemma FirstInIdOrderTake(tasks: map<Id, Task>, q: Query, i: nat, limit: nat, r: seq<TaskView>)
    requires FirstInIdOrder(tasks, q, i, limit, r)
    requires i in tasks && Matches(q, tasks[i]) && |r| < limit
    ensures FirstInIdOrder(tasks, q, i + 1, limit, r + [TaskView(i, tasks[i])])
  {
    MatchingBelowStep(tasks, q, i);
    var before := MatchingBelow(tasks, q, i);
    var v := TaskView(i, tasks[i]);
    AppendFreshId(r, v, before);
    AppendKeepsStoredMatching(tasks, q, r, v);
    AppendKeepsAscendingIds(r, v);
  }

  /** Any other id leaves the list as it is. */
  lemma FirstInIdOrderSkip(tasks: map<Id, Task>, q: Query, i: nat, limit: nat, r: seq<TaskView>)
    requires FirstInIdOrder(tasks, q, i, limit, r)
    requires !(i in tasks && Matches(q, tasks[i]) && |r| < limit)
    ensures FirstInIdOrder(tasks, q, i + 1, limit, r)
  {
    MatchingBelowStep(tasks, q, i);
    var before := MatchingBelow(tasks, q, i);
    var after := MatchingBelow(tasks, q, i + 1);
    forall id | id in after && id !in IdsOf(r) ensures forall k :: 0 <= k < |r| ==> r[k].id < id {
      if id != i {
        assert id in before;
      }
    }
    if i in tasks && Matches(q, tasks[i]) {
      assert |after| == |before| + 1;
    } else {
      assert after == before;
    }
  }

  // ----- the store ------------------------------------------------------------------

  class TaskStore {
    var tasks: map<Id, Task>
    /** The id the next insert receives; ids ascend in insertion order. */
    var nextId: Id

    ghost predicate Valid()
      reads this
    {
      forall id :: id in tasks ==> id < nextId && Consistent(tasks[id])
    }

    ghost function MatchingIds(q: Query): set<Id>
      reads this
    {
      set id | id in tasks && Matches(q, tasks[id])
    }

    ghost function VisibleIds(f: Filters, c: Caller): set<Id>
      reads this
    {
      set id | id in tasks && Admits(f, c, tasks[id])
    }

    constructor ()
      ensures Valid() && tasks == map[] && nextId == 0
    {
      tasks := map[];
      nextId := 0;
    }

    /** `create_task`: insert the initialised record under a fresh id and return it. */
    method CreateTask(data: TaskCreate, now: int) returns (created: TaskView)
      requires Valid()
      modifies this
      ensures Valid()
      ensures old(nextId) !in old(tasks) && nextId == old(nextId) + 1
      ensures created == TaskView(old(nextId), NewTask(data, now))
      ensures tasks == old(tasks)[created.id := created.task]
    {
      var doc := Task(data.title, data.description, data.priority, data.dueDate, data.projectId,
                      data.createdBy, data.assignedToDev, data.assignedToTester, None, None, [], now, now);
      if Truthy(data.assignedToDev) {
        doc := doc.(devStatus := Some(DevPending));
      }
      if Truthy(data.assignedToTester) {
        doc := doc.(testerStatus := Some(TestPending));
      }
      var id := nextId;
      tasks := tasks[id := doc];
      nextId := nextId + 1;
      created := TaskView(id, doc);
    }

    /** `get_task_by_id`: the stored task, or nothing for an unknown id. */
    method GetTaskById(id: Id) returns (r: Option<TaskView>)
      ensures r.Some? <==> id in tasks
      ensures r.Some? ==> r.value == TaskView(id, tasks[id])
    {
      if id in tasks {
        r := Some(TaskView(id, tasks[id]));
      } else {
        r := None;
      }
    }

    /** `assign_task`. */
    method AssignTask(id: Id, developer: Option<string>, tester: Option<string>, now: int)
      returns (r: Result<TaskView>)
      requires Valid()
      modifies this
      ensures Valid() && nextId == old(nextId)
      ensures r == AsView(id, Assign(Lookup(old(tasks), id), developer, tester, now))
      ensures tasks == Stored(old(tasks), id, Assign(Lookup(old(tasks), id), developer, tester, now))
    {
      if id !in tasks {
        return Err(ValueError(TaskNotFound));
      }
      var current := tasks[id];
      var update := EmptyPatch;
      if developer.Some? {
        update := update.(assignedToDev := developer);
        if current.devStatus.None? {
          update := update.(devStatus := Some(DevPending));
        }
      }
      if tester.Some? {
        update := update.(assignedToTester := tester);
        if current.testerStatus.None? {
          update := update.(testerStatus := Some(TestPending));
        }
      }
      if update == EmptyPatch {
        assert tasks[id := current] == tasks;
        return Ok(TaskView(id, current));
      }
      var updated := ApplyPatch(current, update, now);
      tasks := tasks[id := updated];
      r := Ok(TaskView(id, updated));
    }

    /** The `to_set` document of `update_task_admin`, built one present field at a time. */
    static method AdminSetDocument(current: Task, payload: TaskUpdateAdmin) returns (toSet: TaskPatch)
      ensures toSet.title == payload.title && toSet.description == payload.description
      ensures toSet.priority == payload.priority && toSet.dueDate == payload.dueDate
      ensures toSet.assignedToDev == payload.assignedToDev && toSet.assignedToTester == payload.assignedToTester
      ensures toSet.devStatus == (if payload.assignedToDev.Some? && current.devStatus.None? then Some(DevPending) else None)
      ensures toSet.testerStatus ==
        (if payload.assignedToTester.Some? && current.testerStatus.None? then Some(TestPending) else None)
      ensures toSet.remarks.None?
    {
      toSet := EmptyPatch;
      if payload.title.Some? {
        toSet := toSet.(title := payload.title);
      }
      if payload.description.Some? {
        toSet := toSet.(description := payload.description);
      }
      assert toSet == EmptyPatch.(title := payload.title, description := payload.description);
      if payload.priority.Some? {
        toSet := toSet.(priority := payload.priority);
      }
      if payload.dueDate.Some? {
        toSet := toSet.(dueDate := payload.dueDate);
      }
      assert toSet == EmptyPatch.(title := payload.title, description := payload.description,
                                  priority := payload.priority, dueDate := payload.dueDate);
      if payload.assignedToDev.Some? {
        toSet := toSet.(assignedToDev := payload.assignedToDev);
      }
      if payload.assignedToTester.Some? {
        toSet := toSet.(assignedToTester := payload.assignedToTester);
      }
      assert toSet.assignedToDev == payload.assignedToDev && toSet.assignedToTester == payload.assignedToTester;
      if toSet.assignedToDev.Some? && current.devStatus.None? {
        toSet := toSet.(devStatus := Some(DevPending));
      }
      if toSet.assignedToTester.Some? && current.testerStatus.None? {
        toSet := toSet.(testerStatus := Some(TestPending));
      }
    }

    /** `update_task_admin`: copy the allowed fields that are present, then the assignment rule. */
    method UpdateTaskAdmin(id: Id, payload: TaskUpdateAdmin, now: int) returns (r: Result<TaskView>)
      requires Valid()
      modifies this
      ensures Valid() && nextId == old(nextId)
      ensures r == AsView(id, AdminUpdate(Lookup(old(tasks), id), payload, now))
      ensures tasks == Stored(old(tasks), id, AdminUpdate(Lookup(old(tasks), id), payload, now))
    {
      if id !in tasks {
        return Err(ValueError(TaskNotFound));
      }
      var current := tasks[id];
      var toSet := AdminSetDocument(current, payload);
      AdminPatchAgrees(current, payload, toSet, now);
      if toSet != EmptyPatch {
        var updated := ApplyPatch(current, toSet, now);
        tasks := tasks[id := updated];
        return Ok(TaskView(id, updated));
      }
      assert tasks[id := current] == tasks;
      r := Ok(TaskView(id, current));
    }

    /** `update_dev_status`. */
    method UpdateDevStatus(id: Id, userEmail: string, payload: TaskUpdateDeveloper, now: int)
      returns (r: Result<TaskView>)
      requires Valid()
      modifies this
      ensures Valid() && nextId == old(nextId)
      ensures r == AsView(id, SetDevStatus(Lookup(old(tasks), id), userEmail, payload, now))
      ensures tasks == Stored(old(tasks), id, SetDevStatus(Lookup(old(tasks), id), userEmail, payload, now))
    {
      if id !in tasks {
        return Err(ValueError(TaskNotFound));
      }
      var task := tasks[id];
      if task.assignedToDev != Some(userEmail) {
        return Err(PermissionError(NotAssignedToDeveloper));
      }
      var update := EmptyPatch.(devStatus := Some(payload.devStatus));
      var updated := ApplyPatch(task, update, now);
      tasks := tasks[id := updated];
      r := Ok(TaskView(id, updated));
    }

    /** `append_dev_remarks`; `iso` is the ISO rendering of `now` that goes into each tag. */
    method AppendDevRemarks(id: Id, userEmail: string, payload: TaskAppendRemarks, now: int, iso: string)
      returns (r: Result<TaskView>)
      requires Valid()
      modifies this
      ensures Valid() && nextId == old(nextId)
      ensures r == AsView(id, WithDevRemarks(Lookup(old(tasks), id), userEmail, payload, now, iso))
      ensures tasks == Stored(old(tasks), id, WithDevRemarks(Lookup(old(tasks), id), userEmail, payload, now, iso))
    {
      if id !in tasks {
        return Err(ValueError(TaskNotFound));
      }
      var task := tasks[id];
      if task.assignedToDev != Some(userEmail) {
        return Err(PermissionError(NotAssignedToDeveloper));
      }
      var tagged := Tagged(DevTag(userEmail, iso), payload.remarks);
      var updated := task.(remarks := task.remarks + tagged, updatedAt := now);
      tasks := tasks[id := updated];
      r := Ok(TaskView(id, updated));
    }

    /** `update_tester_status`. */
    method UpdateTesterStatus(id: Id, userEmail: string, payload: TaskUpdateTester, now: int)
      returns (r: Result<TaskView>)
      requires Valid()
      modifies this
      ensures Valid() && nextId == old(nextId)
      ensures r == AsView(id, SetTesterStatus(Lookup(old(tasks), id), userEmail, payload, now))
      ensures tasks == Stored(old(tasks), id, SetTesterStatus(Lookup(old(tasks), id), userEmail, payload, now))
    {
      if id !in tasks {
        return Err(ValueError(TaskNotFound));
      }
      var task := tasks[id];
      if task.assignedToTester != Some(userEmail) {
        return Err(PermissionError(NotAssignedToTester));
      }
      if task.devStatus != Some(Completed) {
        return Err(PermissionError(DeveloperMustComplete));
      }
      var update := EmptyPatch.(testerStatus := Some(payload.testerStatus));
      if payload.remarks.Some? {
        update := update.(remarks := payload.remarks);
      }
      var updated := ApplyPatch(task, update, now);
      tasks := tasks[id := updated];
      r := Ok(TaskView(id, updated));
    }

    /** `append_tester_remarks`; `iso` is the ISO rendering of `now`. */
    method AppendTesterRemarks(id: Id, userEmail: string, payload: TaskAppendRemarks, now: int, iso: string)
      returns (r: Result<TaskView>)
      requires Valid()
      modifies this
      ensures Valid() && nextId == old(nextId)
      ensures r == AsView(id, WithTesterRemarks(Lookup(old(tasks), id), userEmail, payload, now, iso))
      ensures tasks == Stored(old(tasks), id, WithTesterRemarks(Lookup(old(tasks), id), userEmail, payload, now, iso))
    {
      if id !in tasks {
        return Err(ValueError(TaskNotFound));
      }
      var task := tasks[id];
      if task.assignedToTester != Some(userEmail) {
        return Err(PermissionError(NotAssignedToTester));
      }
      var tagged := Tagged(TesterTag(userEmail, iso), payload.remarks);
      var updated := task.(remarks := task.remarks + tagged, updatedAt := now);
      tasks := tasks[id := updated];
      r := Ok(TaskView(id, updated));
    }

    /** `delete_task`: true iff exactly one record was removed. */
    method DeleteTask(id: Id) returns (deleted: bool)
      requires Valid()
      modifies this
      ensures Valid() && nextId == old(nextId)
      ensures deleted <==> id in old(tasks)
      ensures tasks == old(tasks) - {id}
    {
      deleted := id in tasks;
      tasks := tasks - {id};
    }

    /** `delete_many` on the project reference: every task of the project goes, no other. */
    method DeleteProjectTasks(projectId: Id)
      requires Valid()
      modifies this
      ensures Valid() && nextId == old(nextId)
      ensures forall id :: id in tasks <==> id in old(tasks) && old(tasks)[id].projectId != projectId
      ensures forall id :: id in tasks ==> tasks[id] == old(tasks)[id]
    {
      tasks := map id | id in tasks && tasks[id].projectId != projectId :: tasks[id];
    }

    /**
     * `find(q).sort("created_at", -1).to_list(limit)`: the matching tasks,
     * newest first, at most `limit` of them, and no match left out is newer
     * than one returned.
     */
    method FindNewestFirst(q: Query, limit: nat) returns (r: seq<TaskView>)
      requires Valid()
      ensures StoredMatching(tasks, q, r)
      ensures DistinctIds(r) && NewestFirst(r)
      ensures |r| == Min(limit, |MatchingIds(q)|)
      ensures forall id :: id in MatchingIds(q) && id !in IdsOf(r) ==>
        forall k :: 0 <= k < |r| ==> tasks[id].createdAt <= r[k].task.createdAt
    {
      var acc: seq<TaskView> := [];
      for i := 0 to nextId
        invariant CollectedNewestFirst(tasks, q, i, acc)
      {
        CollectNewestFirstStep(tasks, q, i, acc);
        if i in tasks && Matches(q, tasks[i]) {
          acc := InsertNewestFirst(TaskView(i, tasks[i]), acc);
        }
      }
      assert MatchingBelow(tasks, q, nextId) == MatchingIds(q);
      var n := Min(limit, |acc|);
      NewestCutIsTopK(tasks, q, acc, n);
      r := acc[..n];
    }

    /**
     * `find(q).to_list(limit)` in the collection's natural (insertion) order:
     * the first `limit` matching tasks.
     */
    method FindInOrder(q: Query, limit: nat) returns (r: seq<TaskView>)
      requires Valid()
      ensures StoredMatching(tasks, q, r)
      ensures AscendingIds(r)
      ensures |r| == Min(limit, |MatchingIds(q)|)
      ensures forall id :: id in MatchingIds(q) && id !in IdsOf(r) ==>
        forall k :: 0 <= k < |r| ==> r[k].id < id
    {
      r := [];
      for i := 0 to nextId
        invariant FirstInIdOrder(tasks, q, i, limit, r)
      {
        FirstInIdOrderStep(tasks, q, i, limit, r);
        if i in tasks && Matches(q, tasks[i]) && |r| < limit {
          r := r + [TaskView(i, tasks[i])];
        }
      }
      assert MatchingBelow(tasks, q, nextId) == MatchingIds(q);
    }

    /**
     * `get_all_tasks`: the tasks the caller is shown under the filters,
     * newest first and at most 500; a developer or tester only ever gets
     * tasks assigned to them.
     */
    method GetAllTasks(filters: Filters, caller: Caller) returns (r: seq<TaskView>)
      requires Valid()
      ensures forall k :: 0 <= k < |r| ==>
        r[k].id in tasks && r[k].task == tasks[r[k].id] && Admits(filters, caller, r[k].task)
      ensures caller.role == RoleName(Developer) ==>
        forall k :: 0 <= k < |r| ==> r[k].task.assignedToDev == Some(caller.email)
      ensures caller.role == RoleName(Tester) ==>
        forall k :: 0 <= k < |r| ==> r[k].task.assignedToTester == Some(caller.email)
      ensures DistinctIds(r) && NewestFirst(r)
      ensures |r| == Min(ListCap, |VisibleIds(filters, caller)|)
      ensures forall id :: id in VisibleIds(filters, caller) && id !in IdsOf(r) ==>
        forall k :: 0 <= k < |r| ==> tasks[id].createdAt <= r[k].task.createdAt
    {
      var q := BuildQueryFromFilters(filters);
      if caller.role == RoleName(Developer) {
        q := q.(assignedToDev := Some(caller.email));
      } else if caller.role == RoleName(Tester) {
        q := q.(assignedToTester := Some(caller.email));
      }
      assert forall t :: Matches(q, t) <==> Admits(filters, caller, t);
      assert MatchingIds(q) == VisibleIds(filters, caller);
      r := FindNewestFirst(q, ListCap);
      forall k | 0 <= k < |r| ensures Matches(q, r[k].task) {
        assert r[k] in r;
      }
    }

    /** `get_my_tasks`: a developer or tester gets their own side pinned, which listing does anyway. */
    method GetMyTasks(caller: Caller, filters: Filters) returns (r: seq<TaskView>)
      requires Valid()
      ensures forall k :: 0 <= k < |r| ==>
        r[k].id in tasks && r[k].task == tasks[r[k].id] && Admits(filters, caller, r[k].task)
      ensures DistinctIds(r) && NewestFirst(r)
      ensures |r| == Min(ListCap, |VisibleIds(filters, caller)|)
      ensures forall id :: id in VisibleIds(filters, caller) && id !in IdsOf(r) ==>
        forall k :: 0 <= k < |r| ==> tasks[id].createdAt <= r[k].task.createdAt
    {
      var f := filters;
      if caller.role == RoleName(Developer) {
        f := filters.(assignedToDev := Some(caller.email));
      } else if caller.role == RoleName(Tester) {
        f := filters.(assignedToTester := Some(caller.email));
      }
      assert forall t :: Admits(f, caller, t) <==> Admits(filters, caller, t);
      assert VisibleIds(f, caller) == VisibleIds(filters, caller);
      r := GetAllTasks(f, caller);
    }
  }
}
