/** The task schema (backend/src/models/Task.js): the fields of a task document, the two
    enumerations with their defaults, the required fields and the timestamps Mongoose adds. */
module TaskModel {
  import opened Common

  const Statuses: set<string> := {"pending", "in progress", "completed"}
  const DefaultStatus: string := "pending"
  const Priorities: set<string> := {"low", "medium", "high"}
  const DefaultPriority: string := "medium"

  /** A task document. `status` and `priority` are kept as strings: the schema's enums are
      enforced when a task is saved, but findByIdAndUpdate runs no validators, so a stored task
      may hold other values. `dueDate` is an instant on an abstract clock. */
  datatype Task = Task(title: string, content: string, status: string, dueDate: int,
                       priority: string, user: UserId, createdAt: int, updatedAt: int)

  /** A task together with its ObjectId, as the API returns it. */
  datatype TaskDoc = TaskDoc(id: TaskId, task: Task)

  /** The task fields of a request body; `None` for a field that was not sent. A field sent as
      JSON `null` is not represented. */
  datatype TaskInput = TaskInput(title: Option<string>, content: Option<string>, status: Option<string>,
                                 dueDate: Option<int>, priority: Option<string>)

  /** What the schema's validators accept: required strings are non-empty (Mongoose's required
      check rejects ""), and both enumerations hold. */
  predicate SchemaValid(t: Task)
  {
    t.title != "" && t.content != "" && t.status in Statuses && t.priority in Priorities
  }

  /** A schema default: applied only when the field was not sent at all. */
  function OrDefault(v: Option<string>, default: string): string
  {
    if v.Some? then v.value else default
  }

  /** `new Task({ ...body, user })` followed by `save()`: defaults are filled in, both timestamps
      are set to the save time, and validation rejects the document (`None`) unless title,
      content and dueDate are present, the strings non-empty and the enums satisfied. */
  function NewTask(input: TaskInput, owner: UserId, now: int): (r: Option<Task>)
    ensures r.Some? <==>
              && input.title.Some? && input.title.value != ""
              && input.content.Some? && input.content.value != ""
              && input.dueDate.Some?
              && OrDefault(input.status, DefaultStatus) in Statuses
              && OrDefault(input.priority, DefaultPriority) in Priorities
    ensures r.Some? ==>
              && SchemaValid(r.value)
              && r.value.user == owner
              && r.value.createdAt == now && r.value.updatedAt == now
              && r.value.title == input.title.value
              && r.value.content == input.content.value
              && r.value.dueDate == input.dueDate.value
              && r.value.status == (if input.status.Some? then input.status.value else "pending")
              && r.value.priority == (if input.priority.Some? then input.priority.value else "medium")
  {
    if input.dueDate.None? then None
    else
      var t := Task(OrDefault(input.title, ""), OrDefault(input.content, ""),
                    OrDefault(input.status, DefaultStatus), input.dueDate.value,
                    OrDefault(input.priority, DefaultPriority), owner, now, now);
      if SchemaValid(t) then Some(t) else None
  }

  /** A body with title, content and due date only gets status "pending" and priority "medium". */
  lemma DefaultsFillMissingEnums(title: string, content: string, due: int, owner: UserId, now: int)
    requires title != "" && content != ""
    ensures NewTask(TaskInput(Some(title), Some(content), None, Some(due), None), owner, now)
         == Some(Task(title, content, "pending", due, "medium", owner, now, now))
  {
  }

  /** A default does not replace a value that was sent: an empty status is rejected, not defaulted. */
  lemma EmptyStatusIsNotDefaulted(input: TaskInput, owner: UserId, now: int)
    requires input.status == Some("")
    ensures NewTask(input, owner, now).None?
  {
  }
}
