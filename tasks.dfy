/** The tasks controller (backend/src/controllers/tasksController.js) over the task collection,
    a map from ObjectId to task document. Listing builds a filter and a sort from the query
    string and runs the database query, modelled by `Find`; create, update and delete are
    methods of `TaskStore`, each proved equal to a pure outcome function. */
module Tasks {
  import opened Common
  import opened TaskModel

  /** A JSON response body: `{ message }`, one task, or a list of tasks. */
  datatype Payload = Note(message: string) | One(doc: TaskDoc) | Many(docs: seq<TaskDoc>)

  datatype TaskReply = TaskReply(status: nat, body: Payload)

  const InternalError: TaskReply := TaskReply(500, Note("Internal server error"))

  /** What a handler that writes the collection answers, and the collection afterwards. */
  datatype TaskOutcome = TaskOutcome(reply: TaskReply, tasks: map<TaskId, Task>)

  // ----- GET /api/tasks: filter and sort -----

  /** `req.query` of the listing; a parameter that was not sent is "". */
  datatype ListQuery = ListQuery(status: string, priority: string, sortBy: string, order: string)

  /** The MongoDB filter: always the owner, optionally a status and a priority. */
  datatype Filter = Filter(user: UserId, status: Option<string>, priority: Option<string>)

  predicate Selects(f: Filter, t: Task)
  {
    t.user == f.user
    && (f.status.Some? ==> t.status == f.status.value)
    && (f.priority.Some? ==> t.priority == f.priority.value)
  }

  /** `{ user: req.user.id }`, plus status and priority when their query values are non-empty. */
  function BuildFilter(caller: UserId, q: ListQuery): (f: Filter)
    ensures forall t :: Selects(f, t) <==>
              t.user == caller
              && (q.status != "" ==> t.status == q.status)
              && (q.priority != "" ==> t.priority == q.priority)
  {
    Filter(caller,
           if q.status != "" then Some(q.status) else None,
           if q.priority != "" then Some(q.priority) else None)
  }

  /** A one-key MongoDB sort: `{ [field]: 1 }` or `{ [field]: -1 }`. */
  datatype SortSpec = SortSpec(field: string, ascending: bool)

  /** `sortBy` ascending exactly when `order === "asc"`, descending for any other order; with no
      `sortBy`, newest first. */
  function BuildSort(q: ListQuery): (s: SortSpec)
    ensures q.sortBy == "" ==> s == SortSpec("createdAt", false)
    ensures q.sortBy != "" ==> s.field == q.sortBy && (s.ascending <==> q.order == "asc")
  {
    if q.sortBy != "" then SortSpec(q.sortBy, q.order == "asc") else SortSpec("createdAt", false)
  }

  /** The value a sort compares. BSON orders values of different types by type (a missing field,
      like null, first; then strings; then ObjectIds; then dates) and values of one type by value. */
  datatype SortKey = Missing | Text(s: string) | Ref(n: nat) | Instant(t: int)

  function KeyOf(d: TaskDoc, field: string): SortKey
  {
    if field == "title" then Text(d.task.title)
    else if field == "content" then Text(d.task.content)
    else if field == "status" then Text(d.task.status)
    else if field == "priority" then Text(d.task.priority)
    else if field == "dueDate" then Instant(d.task.dueDate)
    else if field == "createdAt" then Instant(d.task.createdAt)
    else if field == "updatedAt" then Instant(d.task.updatedAt)
    else if field == "user" then Ref(d.task.user)
    else if field == "_id" then Ref(d.id)
    else Missing
  }

  function TypeRank(k: SortKey): nat
  {
    match k
    case Missing => 0
    case Text(_) => 1
    case Ref(_) => 2
    case Instant(_) => 3
  }

  /** Lexicographic order on strings by character code point, which is how MongoDB's binary
      comparison of UTF-8 strings orders them. */
  predicate TextLe(a: string, b: string)
  {
    a == [] || (b != [] && (a[0] < b[0] || (a[0] == b[0] && TextLe(a[1..], b[1..]))))
  }

  lemma {:induction false} TextLeTotal(a: string, b: string)
    ensures TextLe(a, b) || TextLe(b, a)
  {
    if a != [] && b != [] && a[0] == b[0] {
      TextLeTotal(a[1..], b[1..]);
    }
  }

  lemma {:induction false} TextLeTransitive(a: string, b: string, c: string)
    requires TextLe(a, b) && TextLe(b, c)
    ensures TextLe(a, c)
  {
    if a != [] && b != [] && c != [] && a[0] == b[0] == c[0] {
      TextLeTransitive(a[1..], b[1..], c[1..]);
    }
  }

  predicate KeyLe(a: SortKey, b: SortKey)
  {
    if TypeRank(a) != TypeRank(b) then TypeRank(a) < TypeRank(b)
    else match (a, b)
      case (Text(x), Text(y)) => TextLe(x, y)
      case (Ref(x), Ref(y)) => x <= y
      case (Instant(x), Instant(y)) => x <= y
      case _ => true
  }

  lemma KeyLeTotal(a: SortKey, b: SortKey)
    ensures KeyLe(a, b) || KeyLe(b, a)
  {
    if a.Text? && b.Text? {
      TextLeTotal(a.s, b.s);
    }
  }

  lemma KeyLeTransitive(a: SortKey, b: SortKey, c: SortKey)
    requires KeyLe(a, b) && KeyLe(b, c)
    ensures KeyLe(a, c)
  {
    if a.Text? && b.Text? && c.Text? {
      TextLeTransitive(a.s, b.s, c.s);
    }
  }

  /** `x` may come before `y` under the sort. */
  predicate InOrder(spec: SortSpec, x: TaskDoc, y: TaskDoc)
  {
    if spec.ascending then KeyLe(KeyOf(x, spec.field), KeyOf(y, spec.field))
    else KeyLe(KeyOf(y, spec.field), KeyOf(x, spec.field))
  }

  predicate Ordered(spec: SortSpec, s: seq<TaskDoc>)
  {
    forall i, j :: 0 <= i < j < |s| ==> InOrder(spec, s[i], s[j])
  }

  /** `d` placed before the first element it may precede. */
  function Insert(spec: SortSpec, d: TaskDoc, s: seq<TaskDoc>): seq<TaskDoc>
  {
    if s == [] || InOrder(spec, d, s[0]) then [d] + s
    else [s[0]] + Insert(spec, d, s[1..])
  }

  lemma {:induction false} InsertPermutes(spec: SortSpec, d: TaskDoc, s: seq<TaskDoc>)
    ensures multiset(Insert(spec, d, s)) == multiset(s) + multiset{d}
  {
    if s != [] && !InOrder(spec, d, s[0]) {
      InsertPermutes(spec, d, s[1..]);
      assert s == [s[0]] + s[1..];
    }
  }

  lemma {:induction false} InsertKeepsOrder(spec: SortSpec, d: TaskDoc, s: seq<TaskDoc>)
    requires Ordered(spec, s)
    ensures Ordered(spec, Insert(spec, d, s))
  {
    var f := spec.field;
    if s == [] {
    } else if InOrder(spec, d, s[0]) {
      forall j | 0 < j < |s| ensures InOrder(spec, d, s[j]) {
        if spec.ascending {
          KeyLeTransitive(KeyOf(d, f), KeyOf(s[0], f), KeyOf(s[j], f));
        } else {
          KeyLeTransitive(KeyOf(s[j], f), KeyOf(s[0], f), KeyOf(d, f));
        }
      }
    } else {
      KeyLeTotal(KeyOf(d, f), KeyOf(s[0], f));
      InsertKeepsOrder(spec, d, s[1..]);
      var rest := Insert(spec, d, s[1..]);
      InsertPermutes(spec, d, s[1..]);
      forall j | 0 <= j < |rest| ensures InOrder(spec, s[0], rest[j]) {
        assert rest[j] in multiset(rest);
        assert rest[j] == d || rest[j] in s[1..];
      }
    }
  }

  /** The documents of the listed ids that the filter selects. */
  function SelectedAmong(tasks: map<TaskId, Task>, f: Filter, ids: set<TaskId>): set<TaskDoc>
  {
    set id | id in ids && id in tasks && Selects(f, tasks[id]) :: TaskDoc(id, tasks[id])
  }

  /** Everything `Task.find(filter)` returns, in no particular order. */
  function Selected(tasks: map<TaskId, Task>, f: Filter): set<TaskDoc>
  {
    SelectedAmong(tasks, f, tasks.Keys)
  }

  /** Taking one more id into account adds its document when, and only when, the filter selects it. */
  lemma SelectOneMore(tasks: map<TaskId, Task>, f: Filter, done: set<TaskId>, id: TaskId)
    requires id in tasks && id !in done
    ensures multiset(SelectedAmong(tasks, f, done + {id}))
            == multiset(SelectedAmong(tasks, f, done))
               + (if Selects(f, tasks[id]) then multiset{TaskDoc(id, tasks[id])} else multiset{})
  {
    var doc := TaskDoc(id, tasks[id]);
    assert doc !in SelectedAmong(tasks, f, done);
    if Selects(f, tasks[id]) {
      assert SelectedAmong(tasks, f, done + {id}) == SelectedAmong(tasks, f, done) + {doc};
    } else {
      assert SelectedAmong(tasks, f, done + {id}) == SelectedAmong(tasks, f, done);
    }
  }

  /** `Task.find(filter).sort(sort)`: every selected document exactly once, in sort order. */
  method Find(tasks: map<TaskId, Task>, f: Filter, spec: SortSpec) returns (r: seq<TaskDoc>)
    ensures multiset(r) == multiset(Selected(tasks, f))
    ensures Ordered(spec, r)
  {
    r := [];
    var pending := tasks.Keys;
    while pending != {}
      invariant pending <= tasks.Keys
      invariant multiset(r) == multiset(SelectedAmong(tasks, f, tasks.Keys - pending))
      invariant Ordered(spec, r)
      decreases pending
    {
      var id :| id in pending;
      ghost var done := tasks.Keys - pending;
      SelectOneMore(tasks, f, done, id);
      if Selects(f, tasks[id]) {
        var doc := TaskDoc(id, tasks[id]);
        InsertKeepsOrder(spec, doc, r);
        InsertPermutes(spec, doc, r);
        r := Insert(spec, doc, r);
      }
      assert tasks.Keys - (pending - {id}) == done + {id};
      pending := pending - {id};
    }
  }

  /** A document is listed exactly when it is in the collection and the filter selects it. */
  lemma ListedIffSelected(tasks: map<TaskId, Task>, f: Filter, r: seq<TaskDoc>, d: TaskDoc)
    requires multiset(r) == multiset(Selected(tasks, f))
    ensures d in r <==> d.id in tasks && tasks[d.id] == d.task && Selects(f, d.task)
  {
    assert d in r <==> d in multiset(r);
  }

  // ----- GET /api/tasks/:id -----

  /** getTaskById. The caller is not consulted: any authenticated user reads any task. */
  function GetTaskById(tasks: map<TaskId, Task>, caller: UserId, id: TaskId): (r: TaskReply)
    ensures r.status == 200 <==> id in tasks
    ensures id in tasks ==> r.body == One(TaskDoc(id, tasks[id]))
    ensures id !in tasks ==> r == TaskReply(404, Note("Task not found!"))
  {
    if id in tasks then TaskReply(200, One(TaskDoc(id, tasks[id])))
    else TaskReply(404, Note("Task not found!"))
  }

  // ----- POST, PUT, DELETE -----

  /** createTask. `newId` is the ObjectId Mongoose assigns; a document the schema rejects makes
      save() throw, answered 500. */
  function CreateTaskOutcome(tasks: map<TaskId, Task>, caller: UserId, input: TaskInput,
                             newId: TaskId, now: int): (o: TaskOutcome)
    requires newId !in tasks
    ensures o.reply.status == 201 <==> NewTask(input, caller, now).Some?
    ensures o.reply.status != 201 ==> o == TaskOutcome(InternalError, tasks)
    ensures o.reply.status == 201 ==>
              o.tasks.Keys == tasks.Keys + {newId}
              && (forall id :: id in tasks ==> o.tasks[id] == tasks[id])
              && o.reply.body == One(TaskDoc(newId, o.tasks[newId]))
              && o.tasks[newId] == NewTask(input, caller, now).value
              && o.tasks[newId].user == caller
              && SchemaValid(o.tasks[newId])
  {
    match NewTask(input, caller, now)
    case None => TaskOutcome(InternalError, tasks)
    case Some(t) =>
      var saved := tasks[newId := t];
      TaskOutcome(TaskReply(201, One(TaskDoc(newId, t))), saved)
  }

  /** The document findByIdAndUpdate stores: each field sent overwrites, unvalidated; a field not
      sent keeps its value; the timestamps plugin refreshes updatedAt. */
  function Patched(t: Task, input: TaskInput, now: int): Task
  {
    t.(title := OrDefault(input.title, t.title),
       content := OrDefault(input.content, t.content),
       status := OrDefault(input.status, t.status),
       dueDate := if input.dueDate.Some? then input.dueDate.value else t.dueDate,
       priority := OrDefault(input.priority, t.priority),
       updatedAt := now)
  }

  /** updateTask. No ownership check: any caller updates any existing task. */
  function UpdateTaskOutcome(tasks: map<TaskId, Task>, caller: UserId, id: TaskId, input: TaskInput,
                             now: int): (o: TaskOutcome)
    ensures id !in tasks ==> o == TaskOutcome(TaskReply(404, Note("Task not found")), tasks)
    ensures id in tasks <==> o.reply.status == 200
    ensures o.tasks.Keys == tasks.Keys
    ensures forall k :: k in tasks && k != id ==> o.tasks[k] == tasks[k]
    ensures id in tasks ==>
              var before, after := tasks[id], o.tasks[id];
              && o.reply.body == One(TaskDoc(id, after))
              && after.user == before.user && after.createdAt == before.createdAt
              && after.updatedAt == now
              && after.title == (if input.title.Some? then input.title.value else before.title)
              && after.content == (if input.content.Some? then input.content.value else before.content)
              && after.status == (if input.status.Some? then input.status.value else before.status)
              && after.dueDate == (if input.dueDate.Some? then input.dueDate.value else before.dueDate)
              && after.priority == (if input.priority.Some? then input.priority.value else before.priority)
  {
    if id !in tasks then TaskOutcome(TaskReply(404, Note("Task not found")), tasks)
    else
      var updated := Patched(tasks[id], input, now);
      TaskOutcome(TaskReply(200, One(TaskDoc(id, updated))), tasks[id := updated])
  }

  /** Because updates skip validation, a schema-valid task can be given a status outside the enum. */
  lemma UpdateBypassesStatusEnum(tasks: map<TaskId, Task>, caller: UserId, id: TaskId, now: int)
    requires id in tasks && SchemaValid(tasks[id])
    ensures var o := UpdateTaskOutcome(tasks, caller, id, TaskInput(None, None, Some("archived"), None, None), now);
            o.reply.status == 200 && !SchemaValid(o.tasks[id])
  {
  }

  /** deleteTask: 404 for an unknown id, 403 unless the caller owns the task, otherwise exactly
      that task is removed. */
  function DeleteTaskOutcome(tasks: map<TaskId, Task>, caller: UserId, id: TaskId): (o: TaskOutcome)
    ensures id !in tasks ==> o == TaskOutcome(TaskReply(404, Note("Task not found")), tasks)
    ensures id in tasks && tasks[id].user != caller ==>
              o == TaskOutcome(TaskReply(403, Note("Not authorized to delete this task")), tasks)
    ensures o.reply.status == 200 <==> id in tasks && tasks[id].user == caller
    ensures o.reply.status == 200 ==>
              o.tasks.Keys == tasks.Keys - {id}
              && (forall k :: k in o.tasks ==> o.tasks[k] == tasks[k])
              && o.reply.body == Note("Task deleted successfully")
  {
    if id !in tasks then TaskOutcome(TaskReply(404, Note("Task not found")), tasks)
    else if tasks[id].user != caller then
      TaskOutcome(TaskReply(403, Note("Not authorized to delete this task")), tasks)
    else TaskOutcome(TaskReply(200, Note("Task deleted successfully")), tasks - {id})
  }

  /** Ownership is checked on delete only: a caller who does not own an existing task cannot
      delete it, yet reads it and overwrites its fields, exactly as its owner would. */
  lemma OwnershipCheckedOnlyOnDelete(tasks: map<TaskId, Task>, caller: UserId, id: TaskId,
                                     input: TaskInput, now: int)
    requires id in tasks && tasks[id].user != caller
    ensures DeleteTaskOutcome(tasks, caller, id).reply.status == 403
    ensures DeleteTaskOutcome(tasks, caller, id).tasks == tasks
    ensures GetTaskById(tasks, caller, id) == GetTaskById(tasks, tasks[id].user, id)
    ensures UpdateTaskOutcome(tasks, caller, id, input, now) == UpdateTaskOutcome(tasks, tasks[id].user, id, input, now)
    ensures UpdateTaskOutcome(tasks, caller, id, input, now).reply.status == 200
  {
  }

  /** The task collection with its handlers. */
  class TaskStore {
    var tasks: map<TaskId, Task>

    constructor ()
      ensures tasks == map[]
    {
      tasks := map[];
    }

    /** getAllTasks: the caller's tasks that match the query, in the query's order. */
    method GetAllTasks(caller: UserId, q: ListQuery) returns (reply: TaskReply)
      ensures reply.status == 200 && reply.body.Many?
      ensures multiset(reply.body.docs) == multiset(Selected(tasks, BuildFilter(caller, q)))
      ensures Ordered(BuildSort(q), reply.body.docs)
      ensures forall d :: d in reply.body.docs ==> d.id in tasks && d.task == tasks[d.id] && d.task.user == caller
    {
      var filter := BuildFilter(caller, q);
      var sort := BuildSort(q);
      var docs := Find(tasks, filter, sort);
      forall d | d in docs ensures d.id in tasks && d.task == tasks[d.id] && d.task.user == caller {
        ListedIffSelected(tasks, filter, docs, d);
      }
      reply := TaskReply(200, Many(docs));
    }

    method CreateTask(caller: UserId, input: TaskInput, newId: TaskId, now: int) returns (reply: TaskReply)
      requires newId !in tasks
      modifies this
      ensures TaskOutcome(reply, tasks) == CreateTaskOutcome(old(tasks), caller, input, newId, now)
    {
      var task := NewTask(input, caller, now);
      if task.None? {
        reply := InternalError;
        return;
      }
      tasks := tasks[newId := task.value];
      reply := TaskReply(201, One(TaskDoc(newId, task.value)));
    }

    method UpdateTask(caller: UserId, id: TaskId, input: TaskInput, now: int) returns (reply: TaskReply)
      modifies this
      ensures TaskOutcome(reply, tasks) == UpdateTaskOutcome(old(tasks), caller, id, input, now)
    {
      if id !in tasks {
        reply := TaskReply(404, Note("Task not found"));
        return;
      }
      var updated := Patched(tasks[id], input, now);
      tasks := tasks[id := updated];
      reply := TaskReply(200, One(TaskDoc(id, updated)));
    }

    method DeleteTask(caller: UserId, id: TaskId) returns (reply: TaskReply)
      modifies this
      ensures TaskOutcome(reply, tasks) == DeleteTaskOutcome(old(tasks), caller, id)
    {
      if id !in tasks {
        reply := TaskReply(404, Note("Task not found"));
        return;
      }
      var task := tasks[id];
      if task.user != caller {
        reply := TaskReply(403, Note("Not authorized to delete this task"));
        return;
      }
      tasks := tasks - {id};
      reply := TaskReply(200, Note("Task deleted successfully"));
    }
  }
}
