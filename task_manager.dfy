/** The task-manager component: its local copy of the task list, the create
    and edit forms, and how each handler reconciles the list with the
    server's reply (append, replace by id, filter by id). */
module TaskManager {
  import opened Basics
  import opened Types
  import opened Store

  /** `tasks.map(t => t.id === id ? updated : t)`. */
  function ReplaceById(s: seq<Task>, id: string, updated: Task): (r: seq<Task>)
    ensures |r| == |s|
    ensures forall i :: 0 <= i < |s| ==> r[i] == if s[i].id == id then updated else s[i]
  {
    if s == [] then []
    else [if s[0].id == id then updated else s[0]] + ReplaceById(s[1..], id, updated)
  }

  /** `tasks.filter(t => t.id !== id)`. */
  function RemoveById(s: seq<Task>, id: string): (r: seq<Task>)
    ensures !HasId(r, id)
    ensures forall t :: t in s && t.id != id ==> t in r
    ensures forall t :: t in r ==> t in s
    ensures |r| <= |s|
    ensures !HasId(s, id) ==> r == s
  {
    if s == [] then []
    else if s[0].id == id then RemoveById(s[1..], id)
    else [s[0]] + RemoveById(s[1..], id)
  }

  /** The filter keeps the relative order of the tasks it keeps. */
  lemma {:induction false} RemoveByIdAppend(a: seq<Task>, b: seq<Task>, id: string)
    ensures RemoveById(a + b, id) == RemoveById(a, id) + RemoveById(b, id)
  {
    if a == [] {
      assert a + b == b;
    } else {
      var ab := a + b;
      assert ab[0] == a[0] && ab[1..] == a[1..] + b;
      RemoveByIdAppend(a[1..], b, id);
      if a[0].id != id {
        var ra, rb := RemoveById(a[1..], id), RemoveById(b, id);
        assert [a[0]] + (ra + rb) == ([a[0]] + ra) + rb;
      }
    }
  }

  /** With unique ids, replacing by id is the server's replace at the first
      matching index. */
  lemma ReplaceByIdIsPut(s: seq<Task>, i: nat, updated: Task)
    requires UniqueIds(s) && i < |s|
    ensures ReplaceById(s, s[i].id, updated) == s[i := updated]
  {
  }

  /** With unique ids, removing by id is the server's `splice` at the first
      matching index. */
  lemma {:induction false} RemoveByIdIsSplice(s: seq<Task>, i: nat)
    requires UniqueIds(s) && i < |s|
    ensures RemoveById(s, s[i].id) == RemoveAt(s, i)
  {
    var id := s[i].id;
    assert s == s[..i] + ([s[i]] + s[i + 1..]);
    RemoveByIdAppend(s[..i], [s[i]] + s[i + 1..], id);
    RemoveByIdAppend([s[i]], s[i + 1..], id);
    assert !HasId(s[..i], id) by {
      forall j | 0 <= j < i ensures s[..i][j].id != id { assert s[..i][j] == s[j]; }
    }
    assert !HasId(s[i + 1..], id) by {
      var rest := s[i + 1..];
      forall j | 0 <= j < |rest| ensures rest[j].id != id { assert rest[j] == s[i + 1 + j]; }
    }
    assert [s[i]][1..] == [];
    assert RemoveById([s[i]], id) == [];
  }

  /** Without unique ids the two disagree: the filter drops every copy,
      `splice` only the first. */
  lemma DuplicateIdsDiverge(t: Task)
    ensures RemoveById([t, t], t.id) == []
    ensures RemoveAt([t, t], 0) == [t]
  {
    assert [t, t][1..] == [t];
    assert [t][1..] == [];
  }

  /** The reply to a request: `NoTask` covers `success: false` and a request
      that threw; `GotTask` carries `data.data`. */
  datatype TaskReply = NoTask | GotTask(task: Task)

  datatype ListReply = NoList | GotList(tasks: seq<Task>)

  const EmptyForm := CreateTaskRequest("", "")

  /** The patch `toggleComplete` sends. */
  function TogglePatch(t: Task): (p: UpdateTaskRequest)
    ensures p.title.None? && p.description.None?
    ensures p.completed == Some(!t.completed)
  {
    UpdateTaskRequest(None, None, Some(!t.completed))
  }

  /** The edit form `startEditing` fills in from a task. */
  function EditFormOf(t: Task): (p: UpdateTaskRequest)
    ensures p.title == Some(t.title) && p.description == Some(t.description) && p.completed == Some(t.completed)
  {
    UpdateTaskRequest(Some(t.title), Some(t.description), Some(t.completed))
  }

  /** Saving an untouched edit form changes nothing but the modification time. */
  lemma UntouchedEditIsNoOp(t: Task, now: Timestamp)
    ensures ApplyPatch(t, EditFormOf(t), now) == t.(updatedAt := now)
  {
  }

  /** Toggling twice restores the completion flag. */
  lemma ToggleTwiceRestores(t: Task, first: Timestamp, second: Timestamp)
    ensures var once := ApplyPatch(t, TogglePatch(t), first);
      ApplyPatch(once, TogglePatch(once), second) == t.(updatedAt := second)
  {
  }

  class TaskManagerState {
    var tasks: seq<Task>
    var newTask: CreateTaskRequest
    var editingTask: Option<Task>
    var editForm: UpdateTaskRequest

    constructor ()
      ensures tasks == [] && newTask == EmptyForm && editingTask == None && editForm == NoChange
    {
      tasks, newTask, editingTask, editForm := [], EmptyForm, None, NoChange;
    }

    /** `fetchTasks`: adopt the server's list on success. */
    method FetchTasks(reply: ListReply) returns (sent: HttpRequest<()>)
      modifies this
      ensures sent == HttpRequest(GET, "/api/tasks", None)
      ensures tasks == if reply.GotList? then reply.tasks else old(tasks)
      ensures newTask == old(newTask) && editingTask == old(editingTask) && editForm == old(editForm)
    {
      sent := HttpRequest(GET, "/api/tasks", None);
      if reply.GotList? {
        tasks := reply.tasks;
      }
    }

    /** `createTask`: nothing for a blank field; otherwise POST the form and,
      on success, append the server's task and clear the form. */
    method CreateTask(reply: TaskReply) returns (sent: Option<HttpRequest<CreateTaskRequest>>)
      modifies this
      ensures IsBlank(old(newTask).title) || IsBlank(old(newTask).description) ==>
        sent == None && tasks == old(tasks) && newTask == old(newTask)
      ensures !IsBlank(old(newTask).title) && !IsBlank(old(newTask).description) ==>
        && sent == Some(HttpRequest(POST, "/api/tasks", Some(old(newTask))))
        && tasks == (if reply.GotTask? then old(tasks) + [reply.task] else old(tasks))
        && newTask == (if reply.GotTask? then EmptyForm else old(newTask))
      ensures editingTask == old(editingTask) && editForm == old(editForm)
    {
      if IsBlank(newTask.title) || IsBlank(newTask.description) {
        return None;
      }
      sent := Some(HttpRequest(POST, "/api/tasks", Some(newTask)));
      if reply.GotTask? {
        tasks := tasks + [reply.task];
        newTask := EmptyForm;
      }
    }

    /** `updateTask`: PUT the patch and, on success, replace every task with
      that id by the server's task and close the editor. */
    method UpdateTask(taskId: string, updates: UpdateTaskRequest, reply: TaskReply)
      returns (sent: HttpRequest<UpdateTaskRequest>)
      modifies this
      ensures sent == HttpRequest(PUT, "/api/tasks/" + taskId, Some(updates))
      ensures reply.GotTask? ==>
        tasks == ReplaceById(old(tasks), taskId, reply.task) && editingTask == None && editForm == NoChange
      ensures reply.NoTask? ==>
        tasks == old(tasks) && editingTask == old(editingTask) && editForm == old(editForm)
      ensures newTask == old(newTask)
    {
      sent := HttpRequest(PUT, "/api/tasks/" + taskId, Some(updates));
      if reply.GotTask? {
        tasks := ReplaceById(tasks, taskId, reply.task);
        editingTask := None;
        editForm := NoChange;
      }
    }

    /** `deleteTask`: DELETE and, on success, drop every task with that id. */
    method DeleteTask(taskId: string, succeeded: bool) returns (sent: HttpRequest<()>)
      modifies this
      ensures sent == HttpRequest(DELETE, "/api/tasks/" + taskId, None)
      ensures tasks == if succeeded then RemoveById(old(tasks), taskId) else old(tasks)
      ensures newTask == old(newTask) && editingTask == old(editingTask) && editForm == old(editForm)
    {
      sent := HttpRequest(DELETE, "/api/tasks/" + taskId, None);
      if succeeded {
        tasks := RemoveById(tasks, taskId);
      }
    }

    /** `toggleComplete`: an update carrying only the negated flag. */
    method ToggleComplete(task: Task, reply: TaskReply) returns (sent: HttpRequest<UpdateTaskRequest>)
      modifies this
      ensures sent == HttpRequest(PUT, "/api/tasks/" + task.id, Some(TogglePatch(task)))
      ensures reply.GotTask? ==> tasks == ReplaceById(old(tasks), task.id, reply.task)
      ensures reply.NoTask? ==> tasks == old(tasks)
      ensures reply.GotTask? ==> editingTask == None && editForm == NoChange
      ensures reply.NoTask? ==> editingTask == old(editingTask) && editForm == old(editForm)
      ensures newTask == old(newTask)
    {
      sent := UpdateTask(task.id, TogglePatch(task), reply);
    }

    /** `startEditing`: open the editor on a copy of the task's fields. */
    method StartEditing(task: Task)
      modifies this
      ensures editingTask == Some(task) && editForm == EditFormOf(task)
      ensures tasks == old(tasks) && newTask == old(newTask)
    {
      editingTask := Some(task);
      editForm := EditFormOf(task);
    }

    /** `saveEdit`: send the edit form for the task being edited, if any. */
    method SaveEdit(reply: TaskReply) returns (sent: Option<HttpRequest<UpdateTaskRequest>>)
      modifies this
      ensures old(editingTask).None? ==>
        sent == None && tasks == old(tasks) && editingTask == old(editingTask) && editForm == old(editForm)
      ensures old(editingTask).Some? ==>
        && sent == Some(HttpRequest(PUT, "/api/tasks/" + old(editingTask).value.id, Some(old(editForm))))
        && tasks == (if reply.GotTask? then ReplaceById(old(tasks), old(editingTask).value.id, reply.task) else old(tasks))
      ensures old(editingTask).Some? && reply.GotTask? ==> editingTask == None && editForm == NoChange
      ensures old(editingTask).Some? && reply.NoTask? ==> editingTask == old(editingTask) && editForm == old(editForm)
      ensures newTask == old(newTask)
    {
      sent := None;
      if editingTask.Some? {
        var request := UpdateTask(editingTask.value.id, editForm, reply);
        sent := Some(request);
      }
    }
  }
}
