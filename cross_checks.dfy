/** How the pieces fit together: the client's tool catalog against the
    server's switch, the task manager's form check against the route's, and
    whole sequences of calls on a freshly seeded store. */
module CrossChecks {
  import opened Basics
  import opened Types
  import opened Store
  import McpServer
  import McpClient
  import TasksRoute
  import TaskManager

  /** The client's catalog and the server's switch name the same seven tools. */
  lemma CatalogMatchesServer(name: string)
    ensures McpClient.InCatalog(name) <==> McpServer.KnownTool(name)
  {
    assert McpClient.McpTools[0].name == "list_tasks" && McpClient.McpTools[1].name == "create_task";
    assert McpClient.McpTools[2].name == "update_task" && McpClient.McpTools[3].name == "delete_task";
    assert McpClient.McpTools[4].name == "read_file" && McpClient.McpTools[5].name == "list_files";
    assert McpClient.McpTools[6].name == "system_info";
  }

  /** A form the task manager lets through is one the route accepts. */
  lemma ManagerFormPassesRoute(form: CreateTaskRequest)
    requires !IsBlank(form.title) && !IsBlank(form.description)
    ensures TasksRoute.Filled(Some(form.title)) && TasksRoute.Filled(Some(form.description))
  {
  }

  /** The converse fails: the route accepts a title of spaces that the task
      manager would not send. */
  lemma RouteAcceptsBlankTitle()
    ensures TasksRoute.Filled(Some(" ")) && IsBlank(" ")
  {
  }

  /** The tool server's `create_task` does not validate: without arguments it
      stores a task with empty title and description. */
  lemma ToolCreateWithoutArguments(now: Timestamp)
    ensures McpServer.NewTask(McpServer.NoArgs, now).title == ""
    ensures McpServer.NewTask(McpServer.NoArgs, now).description == ""
    ensures !TasksRoute.AllFilled([McpServer.NewTask(McpServer.NoArgs, now)])
  {
    var s := [McpServer.NewTask(McpServer.NoArgs, now)];
    assert s[0].title == "";
  }

  /** A clock reading of 1 ms collides with the seeded id "1". */
  lemma StaleClockDuplicatesId()
    ensures !UniqueIds(Seed + [McpServer.NewTask(McpServer.NoArgs, 1)])
  {
    assert Decimal(1) == "1";
    var s := Seed + [McpServer.NewTask(McpServer.NoArgs, 1)];
    assert s[0].id == s[2].id;
  }

  /** Deleting task "2" from the seeded tool store returns it and leaves
      only task "1". */
  method DeleteSeededTask(host: McpServer.Host) returns (deleted: Result<McpServer.ToolOutput, string>,
                                                      listed: Result<McpServer.ToolOutput, string>)
    ensures deleted == Ok(McpServer.Deleted(Seed[1]))
    ensures listed == Ok(McpServer.TaskList([Seed[0]]))
  {
    var store := new TaskStore.Seeded();
    var args := McpServer.NoArgs.(id := Some("2"));
    assert FindIndex(Seed, "2") == Some(1) by { SeedIsWellFormed(); FindIndexUnique(Seed, "2", 1); }
    assert RemoveAt(Seed, 1) == [Seed[0]];
    deleted := McpServer.CallTool(store, "delete_task", args, 0, host);
    listed := McpServer.CallTool(store, "list_tasks", McpServer.NoArgs, 0, host);
  }

  /** Create, then mark completed, then list: the new task is the only
      change, completed and with its title and description intact. */
  method CreateCompleteList(title: string, description: string, now: Timestamp, later: Timestamp, host: McpServer.Host)
    returns (listed: Result<McpServer.ToolOutput, string>)
    requires now != 1 && now != 2
    ensures listed.Ok? && listed.value.TaskList?
    ensures |listed.value.tasks| == 3 && listed.value.tasks[..2] == Seed
    ensures var t := listed.value.tasks[2];
      t.id == Decimal(now) && t.title == title && t.description == description
      && t.completed && t.createdAt == now && t.updatedAt == later
  {
    var store := new TaskStore.Seeded();
    var args := McpServer.NoArgs.(title := Some(title), description := Some(description));
    var created := McpServer.CallTool(store, "create_task", args, now, host);
    assert Seed[0].id == Decimal(1) && Seed[1].id == Decimal(2);
    DecimalInjective(1, now);
    DecimalInjective(2, now);
    SeedIsWellFormed();
    AppendKeepsUniqueIff(Seed, McpServer.NewTask(args, now));
    FindIndexUnique(store.tasks, Decimal(now), 2);
    var patch := McpServer.NoArgs.(id := Some(Decimal(now)), completed := Some(true));
    var updated := McpServer.CallTool(store, "update_task", patch, later, host);
    listed := McpServer.CallTool(store, "list_tasks", McpServer.NoArgs, later, host);
  }

  /** The route and the tool server keep separate lists: a task created
      over HTTP is not seen by `list_tasks`. */
  method StoresAreSeparate(title: string, description: string, now: Timestamp, host: McpServer.Host)
    returns (created: HttpReply<Task>, listed: Result<McpServer.ToolOutput, string>)
    requires title != "" && description != ""
    ensures created.status == 201
    ensures listed == Ok(McpServer.TaskList(Seed))
  {
    var routeTasks := new TaskStore.Seeded();
    var toolTasks := new TaskStore.Seeded();
    created := TasksRoute.Post(routeTasks, Ok(TasksRoute.NewTaskBody(Some(title), Some(description))), now);
    listed := McpServer.CallTool(toolTasks, "list_tasks", McpServer.NoArgs, now, host);
  }

  /** An update without an id is refused as "not found" and the list stays. */
  method UpdateWithoutId(now: Timestamp, host: McpServer.Host) returns (r: Result<McpServer.ToolOutput, string>, size: nat)
    ensures r == McpServer.Fail("Task not found")
    ensures size == |Seed|
  {
    var store := new TaskStore.Seeded();
    r := McpServer.CallTool(store, "update_task", McpServer.NoArgs.(completed := Some(true)), now, host);
    size := |store.tasks|;
  }

  /** A valid POST followed by GET reports three tasks, the new one last. */
  method PostThenGet(title: string, description: string, now: Timestamp)
    returns (created: HttpReply<Task>, listed: HttpReply<seq<Task>>)
    requires title != "" && description != ""
    ensures created.status == 201 && created.body.data.Some?
    ensures listed.body.message == Some("Retrieved 3 tasks")
    ensures listed.body.data == Some(Seed + [created.body.data.value])
  {
    var store := new TaskStore.Seeded();
    created := TasksRoute.Post(store, Ok(TasksRoute.NewTaskBody(Some(title), Some(description))), now);
    assert |store.tasks| == 3;
    assert Decimal(3) == "3";
    assert "Retrieved " + Decimal(|store.tasks|) + " tasks" == "Retrieved 3 tasks";
    listed := TasksRoute.Get(store);
  }

  /** The task manager's reconciliation of a delete matches the server's
      store when ids are unique. */
  lemma ManagerDeleteMatchesServer(s: seq<Task>, id: string)
    requires UniqueIds(s)
    ensures match FindIndex(s, id)
      case None => TaskManager.RemoveById(s, id) == s
      case Some(i) => TaskManager.RemoveById(s, id) == RemoveAt(s, i)
  {
    match FindIndex(s, id) {
      case None =>
      case Some(i) => TaskManager.RemoveByIdIsSplice(s, i);
    }
  }
}
