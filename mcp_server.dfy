/** The tool-call handler of the MCP task server: a switch on the tool name
    over the module-level task list, where every failure is re-raised as
    "Tool execution failed: <reason>". */
module McpServer {
  import opened Basics
  import opened Types
  import opened Store

  const FailurePrefix := "Tool execution failed: "

  /** The names the handler's switch has a case for. */
  const ToolNames: seq<string> :=
    ["list_tasks", "create_task", "update_task", "delete_task", "read_file", "list_files", "system_info"]

  predicate KnownTool(name: string) {
    name in ToolNames
  }

  /** Directory entries that `list_files` never reports. */
  const ExcludedEntries: seq<string> := ["node_modules", ".next", ".git", "dist", "build"]

  /** The tool arguments, one field per key the tool schemas declare;
      `None` is an absent or null argument (`arguments || {}` is all `None`). */
  datatype ToolArgs = ToolArgs(
    id: Option<string>,
    title: Option<string>,
    description: Option<string>,
    completed: Option<bool>,
    path: Option<string>)

  const NoArgs := ToolArgs(None, None, None, None, None)

  datatype SystemInfo = SystemInfo(
    platform: string,
    nodeVersion: string,
    heapUsed: nat,
    heapTotal: nat,
    external: nat,
    uptimeSeconds: nat)

  /** What the handler asks of the process it runs in: reading a workspace
      file, listing the workspace directory, and process metrics. */
  datatype Host = Host(
    readFile: string -> Result<string, string>,
    readDir: Result<seq<string>, string>,
    system: SystemInfo)

  /** The payload of a successful call (its JSON text is not modelled). */
  datatype ToolOutput =
    | TaskList(tasks: seq<Task>)
    | Created(task: Task)
    | Updated(task: Task)
    | Deleted(task: Task)
    | FileContent(path: Option<string>, content: string)
    | FileList(entries: seq<string>)
    | System(info: SystemInfo)

  /** `entries.filter(e => !excluded.includes(e))`. */
  function FilterEntries(entries: seq<string>): (r: seq<string>)
    ensures forall e :: e in r <==> e in entries && e !in ExcludedEntries
    ensures |r| <= |entries|
  {
    if entries == [] then []
    else if entries[0] in ExcludedEntries then FilterEntries(entries[1..])
    else [entries[0]] + FilterEntries(entries[1..])
  }

  /** The filter works entry by entry, so it keeps the original order. */
  lemma {:induction false} FilterEntriesAppend(a: seq<string>, b: seq<string>)
    ensures FilterEntries(a + b) == FilterEntries(a) + FilterEntries(b)
  {
    if a != [] {
      var ab := a + b;
      assert ab != [] && ab[0] == a[0] && ab[1..] == a[1..] + b;
      FilterEntriesAppend(a[1..], b);
      if a[0] !in ExcludedEntries {
        var fa, fb := FilterEntries(a[1..]), FilterEntries(b);
        assert [a[0]] + (fa + fb) == ([a[0]] + fa) + fb;
      }
    } else {
      assert a + b == b;
    }
  }

  lemma FilterEntriesSingle(e: string)
    ensures FilterEntries([e]) == if e in ExcludedEntries then [] else [e]
  {
    assert [e][1..] == [];
  }

  /** `findIndex(t => t.id === args.id)`: an absent id matches nothing. */
  function Locate(s: seq<Task>, id: Option<string>): (r: Option<nat>)
    ensures id.None? ==> r.None?
    ensures r.Some? ==> r.value < |s| && s[r.value].id == id.value
    ensures r.Some? ==> forall j :: 0 <= j < r.value ==> s[j].id != id.value
    ensures r.None? && id.Some? ==> !HasId(s, id.value)
  {
    match id
    case None => None
    case Some(k) => FindIndex(s, k)
  }

  /** The task `create_task` builds: id from the clock, missing text as `''`. */
  function NewTask(args: ToolArgs, now: Timestamp): (t: Task)
    ensures t.id == Decimal(now) && !t.completed
    ensures t.createdAt == now && t.updatedAt == now
    ensures t.title == (if args.title.Some? then args.title.value else "")
    ensures t.description == (if args.description.Some? then args.description.value else "")
  {
    Task(Decimal(now), args.title.GetOr(""), args.description.GetOr(""), false, now, now)
  }

  /** `throw new Error(reason)` as the outer `catch` re-raises it. */
  function Fail(reason: string): (r: Result<ToolOutput, string>)
    ensures r.Err? && StartsWith(r.error, FailurePrefix)
    ensures r.error[|FailurePrefix|..] == reason
  {
    var msg := FailurePrefix + reason;
    assert msg[..|FailurePrefix|] == FailurePrefix;
    Err(msg)
  }

  function PatchOf(args: ToolArgs): UpdateTaskRequest {
    UpdateTaskRequest(args.title, args.description, args.completed)
  }

  /** The `CallToolRequestSchema` handler. `now` is the clock reading used
      for both `Date.now()` and `new Date()`. */
  method CallTool(mcpTasks: TaskStore, name: string, args: ToolArgs, now: Timestamp, host: Host)
    returns (r: Result<ToolOutput, string>)
    modifies mcpTasks
    // every failure carries the prefix and leaves the list as it was
    ensures r.Err? ==> StartsWith(r.error, FailurePrefix)
    ensures r.Err? ==> mcpTasks.tasks == old(mcpTasks.tasks)
    ensures !KnownTool(name) ==> r == Fail("Unknown tool: " + name)
    // only the three task mutations touch the list
    ensures name != "create_task" && name != "update_task" && name != "delete_task"
      ==> mcpTasks.tasks == old(mcpTasks.tasks)
    ensures name == "list_tasks" ==> r == Ok(TaskList(old(mcpTasks.tasks)))
    ensures name == "create_task" ==>
      && r == Ok(Created(NewTask(args, now)))
      && mcpTasks.tasks == old(mcpTasks.tasks) + [NewTask(args, now)]
    ensures name == "update_task" ==>
      match Locate(old(mcpTasks.tasks), args.id)
      case None => r == Fail("Task not found")
      case Some(i) =>
        var t := ApplyPatch(old(mcpTasks.tasks)[i], PatchOf(args), now);
        r == Ok(Updated(t)) && mcpTasks.tasks == old(mcpTasks.tasks)[i := t]
    ensures name == "delete_task" ==>
      match Locate(old(mcpTasks.tasks), args.id)
      case None => r == Fail("Task not found")
      case Some(i) =>
        r == Ok(Deleted(old(mcpTasks.tasks)[i])) && mcpTasks.tasks == RemoveAt(old(mcpTasks.tasks), i)
    // no traversal guard on this path: whatever the host can read is returned
    ensures name == "read_file" ==>
      match host.readFile(args.path.GetOr(""))
      case Ok(content) => r == Ok(FileContent(args.path, content))
      case Err(e) => r == Fail("Failed to read file: " + e)
    ensures name == "list_files" ==>
      match host.readDir
      case Ok(entries) => r == Ok(FileList(FilterEntries(entries)))
      case Err(e) => r == Fail("Failed to list files: " + e)
    ensures name == "system_info" ==> r == Ok(System(host.system))
  {
    match name {
      case "list_tasks" =>
        r := Ok(TaskList(mcpTasks.tasks));
      case "create_task" =>
        var newTask := NewTask(args, now);
        mcpTasks.Push(newTask);
        r := Ok(Created(newTask));
      case "update_task" =>
        var taskIndex := Locate(mcpTasks.tasks, args.id);
        if taskIndex.None? {
          r := Fail("Task not found");
        } else {
          var updatedTask := ApplyPatch(mcpTasks.tasks[taskIndex.value], PatchOf(args), now);
          mcpTasks.Put(taskIndex.value, updatedTask);
          r := Ok(Updated(updatedTask));
        }
      case "delete_task" =>
        var deleteIndex := Locate(mcpTasks.tasks, args.id);
        if deleteIndex.None? {
          r := Fail("Task not found");
        } else {
          var deletedTask := mcpTasks.Splice(deleteIndex.value);
          r := Ok(Deleted(deletedTask));
        }
      case "read_file" =>
        match host.readFile(args.path.GetOr("")) {
          case Ok(content) => r := Ok(FileContent(args.path, content));
          case Err(e) => r := Fail("Failed to read file: " + e);
        }
      case "list_files" =>
        match host.readDir {
          case Ok(entries) => r := Ok(FileList(FilterEntries(entries)));
          case Err(e) => r := Fail("Failed to list files: " + e);
        }
      case "system_info" =>
        r := Ok(System(host.system));
      case _ =>
        r := Fail("Unknown tool: " + name);
    }
  }
}
