# Task manager demo: a Dafny model

This project is a model of the logic in a small Next.js demo application. The application keeps an in-memory task list and gives two ways to reach it:

- an MCP (Model Context Protocol) task server, whose tool-call handler lists, creates, updates and deletes tasks and also reads and lists workspace files;
- an HTTP collection route `/api/tasks` with `GET` and `POST`.

Around these are:

- a file-read route with a directory-traversal guard;
- three React components: an MCP client that turns tool calls into HTTP requests, a task manager that keeps its own copy of the list, and an API explorer;
- the uptime formatter of the home page.

The model has one Dafny module per source file, plus three shared modules:

| module | models |
|---|---|
| `Basics` | `Option`/`Result`, the decimal text of a clock reading (`Date.now().toString()`), `trim()` emptiness, `includes` and `startsWith` |
| `Types` | the shapes of `src/lib/types.ts`, plus the request descriptor that stands for a `fetch` call |
| `Store` | the task list both entry points keep. It is a class holding a `seq<Task>`, changed in place by `Push`, `Put` and `Splice`. Beside it are the `findIndex` search, the update merge and the specification of `splice`. |
| `McpServer` | the `CallToolRequestSchema` handler of `src/lib/mcp-server.ts` |
| `TasksRoute` | `src/app/api/tasks/route.ts` |
| `FileReadRoute` | `src/app/api/files/read/route.ts` |
| `McpClient` | `src/components/McpClient.tsx` |
| `TaskManager` | `src/components/TaskManager.tsx` |
| `ApiExplorer` | `src/components/ApiExplorer.tsx` |
| `HomePage` | `formatUptime` of `src/app/page.tsx` |
| `CrossChecks` | how the pieces fit together, and whole call sequences on a freshly seeded store |

The two task lists are separate in the code: the tool server and the HTTP route each own one, with the same seed. So each entry point takes its own `TaskStore`, although comments in the source speak of one shared list (`CrossChecks.StoresAreSeparate`). The model follows the code.

The clock is a parameter. Each call takes one reading, `now`, in milliseconds. It gives the new id (`Decimal(now)`) and both timestamps.

Each React handler is a method of a class whose fields are the component's state. The reply a `fetch` would produce is passed in as a parameter, and the request the handler would send is returned as a value.

`JSON.parse` and `JSON.stringify` are function parameters, and so are the file system and process metrics the tool server uses.

## Where the code and its own comments and schemas differ

The model follows the code in each case below.

- The `create_task` tool schema lists `title` and `description` as required (src/lib/mcp-server.ts:70). The handler does not check them: it stores `''` for a missing one (`CrossChecks.ToolCreateWithoutArguments`).
- The `update_task` and `delete_task` schemas list `id` as required (src/lib/mcp-server.ts:84, 95). The handler does not check it: it searches for an undefined id, finds nothing and fails with "Task not found" (`CrossChecks.UpdateWithoutId`).
- The comment on the tool server's list says it is shared with the HTTP API (src/lib/mcp-server.ts:9), and the `[id]` route's note speaks of the same storage (src/app/api/tasks/[id]/route.ts:4-5). In the code each module declares its own array, so a task created through the HTTP route does not appear in the tool server's list (`CrossChecks.StoresAreSeparate`).
- The HTTP route's guard is commented as preventing directory traversal (src/app/api/files/read/route.ts:19). The tool server's `read_file` has no such guard: it reads whatever path it is given. `McpServer.CallTool` states this: its `read_file` case returns whatever the host's reader returns for the path.

## Model

| member | source | states |
|---|---|---|
| Basics.Decimal | src/app/api/tasks/route.ts:58 | the text of a clock reading used as an id is non-empty, all digits, and has no leading zero |
| Basics.DecimalRoundTrip | src/app/api/tasks/route.ts:58 | reading the id text back as a number gives the clock reading |
| Basics.DecimalInjective | src/lib/mcp-server.ts:148 | two ids are equal exactly when the two clock readings are equal |
| Basics.IncludesDotDot | src/app/api/files/read/route.ts:20 | `includes('..')` holds exactly when two consecutive dots occur at some position |
| Store.SeedIsWellFormed | src/app/api/tasks/route.ts:5-22 | the seed holds two tasks with distinct ids: "1" completed and "2" not completed |
| Store.FindIndex | src/lib/mcp-server.ts:166-167 | the result is the first index whose id matches; it is absent exactly when no task has the id |
| Store.FindIndexUnique | src/lib/mcp-server.ts:191 | when ids are unique, the index found is the position of the one task with that id |
| Store.ApplyPatch | src/lib/mcp-server.ts:172-178 | a supplied field (even `''` or `false`) replaces the old value; an absent one keeps it; `id` and `createdAt` are kept; `updatedAt` becomes the clock reading |
| Store.EmptyPatchTouchesOnlyUpdatedAt | src/lib/mcp-server.ts:172-178 | an update with no fields changes only the modification time |
| Store.PatchIdempotent | src/lib/mcp-server.ts:172-178 | applying the same patch twice equals applying it once at the later time |
| Store.RemoveAt | src/lib/mcp-server.ts:196 | `splice(i, 1)` leaves one task fewer, keeps the tasks before and after `i` in order, and removes exactly one occurrence of the task at `i` |
| Store.ReplaceKeepsUnique | src/lib/mcp-server.ts:179 | replacing a task by one with the same id keeps the ids unique |
| Store.RemoveKeepsUnique | src/lib/mcp-server.ts:196 | removing a task keeps the ids unique |
| Store.AppendKeepsUniqueIff | src/lib/mcp-server.ts:155 | appending keeps the ids unique exactly when the new id is not already present |
| Store.LaterClockGivesFreshId | src/app/api/tasks/route.ts:58 | an id from a clock reading later than every reading behind the existing ids is fresh |
| Store.TaskStore.Seeded | src/lib/mcp-server.ts:10-27 | a new store holds the two seeded tasks |
| Store.TaskStore.Push | src/lib/mcp-server.ts:155 | the list gains exactly the new task, at the end |
| Store.TaskStore.Put | src/lib/mcp-server.ts:179 | only position `i` changes, and the length stays |
| Store.TaskStore.Splice | src/lib/mcp-server.ts:196 | returns the task at `i` and leaves the list `RemoveAt` describes |
| McpServer.FilterEntries | src/lib/mcp-server.ts:227-230 | an entry is kept exactly when it is not one of the five excluded names |
| McpServer.FilterEntriesAppend | src/lib/mcp-server.ts:227-230 | the filter distributes over concatenation, so kept entries stay in their original order |
| McpServer.FilterEntriesSingle | src/lib/mcp-server.ts:228-230 | a single entry is dropped exactly when it is excluded |
| McpServer.Locate | src/lib/mcp-server.ts:166-167 | an absent id matches nothing; otherwise the result is the first matching index, or nothing when no task has the id |
| McpServer.NewTask | src/lib/mcp-server.ts:147-154 | the created task has the clock's id and timestamps, is not completed, and has `''` for a missing title or description |
| McpServer.Fail | src/lib/mcp-server.ts:267-268 | every re-raised error is "Tool execution failed: " followed by the original reason |
| McpServer.CallTool | src/lib/mcp-server.ts:130-270 | each tool's result and the new list: `list_tasks` returns the list unchanged; `create_task` appends one task; `update_task`/`delete_task` replace or remove the first match, or fail "Task not found" without change; an unknown name fails "Unknown tool: <name>"; every failure is prefixed and leaves the list unchanged; `list_files` filters; `read_file` reads without a guard |
| TasksRoute.SeedIsFilled | src/app/api/tasks/route.ts:5-22 | every seeded task has a non-empty title and description |
| TasksRoute.Get | src/app/api/tasks/route.ts:25-33 | status 200 with the whole list in order and the message "Retrieved <n> tasks" |
| TasksRoute.Post | src/app/api/tasks/route.ts:45-83 | 500 on an unreadable body; 400 "Title and description are required" without change when either field is missing or empty; otherwise 201 with the appended task, and the list changes exactly when the status is 201; non-empty titles and descriptions stay non-empty |
| FileReadRoute.Post | src/app/api/files/read/route.ts:7-63 | 400 "File path is required" for a missing or empty path; 400 "Invalid file path" when the guard fails; a 200 only for an admissible path that was read, echoing the path; every status is 200, 400, 404 or 500 |
| FileReadRoute.GuardPrecedesRead | src/app/api/files/read/route.ts:11-32 | for every request that fails a check, the reply does not depend on the file system |
| FileReadRoute.DotDotAnywhereRefused | src/app/api/files/read/route.ts:20-26 | two consecutive dots anywhere in the path give 400 "Invalid file path" |
| FileReadRoute.AbsolutePathRefused | src/app/api/files/read/route.ts:20-26 | a leading `/` gives 400 "Invalid file path" |
| FileReadRoute.AdmissiblePathIsRead | src/app/api/files/read/route.ts:28-54 | an admissible path is read: success is 200 echoing the path; a read error is 404 with its message |
| McpClient.CatalogWellFormed | src/components/McpClient.tsx:12-85 | seven tools with distinct names and distinct property names, where every required parameter is a declared property |
| McpClient.ExampleParams | src/components/McpClient.tsx:100-113 | the example has exactly the string and boolean properties as keys, each with its example value |
| McpClient.ExampleIsUnique | src/components/McpClient.tsx:101-112 | the example object is determined by the tool's properties |
| McpClient.SimulateToolExecution | src/components/McpClient.tsx:148-215 | unknown tools fail "Unknown tool: <name>"; each tool's presence checks fail with their messages and send nothing; otherwise the exact request is sent, where update sends PUT to `/api/tasks/<id>` with the parameters minus `id` |
| McpClient.RequiredParamsEnforced | src/components/McpClient.tsx:155-190 | a tool called without one of its catalog's required parameters fails and sends nothing |
| McpClient.UpdateBodyOmitsOnlyId | src/components/McpClient.tsx:170-175 | the update body lacks `id` and carries every other parameter unchanged |
| McpClient.ExecuteOutcome | src/components/McpClient.tsx:125-141 | blank parameter text is `{}`; text the parser refuses is a failure carrying the parser's message; otherwise the parsed parameters are routed |
| McpClient.BlankParameters | src/components/McpClient.tsx:127-134 | with blank parameters, a catalog tool sends a request exactly when it needs no parameter |
| McpClient.McpClientState.constructor | src/components/McpClient.tsx:88-92 | nothing selected, empty parameters, no response, not connected |
| McpClient.McpClientState.SelectTool | src/components/McpClient.tsx:94-118 | the tool is selected; the parameters become `{}` for a tool without properties, else the stringified example; the response is cleared |
| McpClient.McpClientState.ExecuteTool | src/components/McpClient.tsx:120-145 | nothing without a selected tool; otherwise the response shown is the outcome of the call |
| McpClient.McpClientState.Connect | src/components/McpClient.tsx:217-225 | connected, with the notice carrying the number of catalog tools |
| McpClient.McpClientState.Disconnect | src/components/McpClient.tsx:227-233 | disconnected, with its notice |
| TaskManager.ReplaceById | src/components/TaskManager.tsx:73 | same length and order; every task with the id becomes the server's task, and the others stay |
| TaskManager.RemoveById | src/components/TaskManager.tsx:89 | no task with the id remains; every other task is kept; nothing new appears; a list without the id is unchanged |
| TaskManager.RemoveByIdAppend | src/components/TaskManager.tsx:89 | the filter distributes over concatenation, so the kept tasks stay in relative order |
| TaskManager.ReplaceByIdIsPut | src/components/TaskManager.tsx:73 | when ids are unique, the client's replace-by-id equals the server's replace at the found index |
| TaskManager.RemoveByIdIsSplice | src/components/TaskManager.tsx:89 | when ids are unique, the client's filter equals the server's `splice` at the found index |
| TaskManager.DuplicateIdsDiverge | src/components/TaskManager.tsx:89 | with a duplicated id, the filter drops both copies while `splice` drops one |
| TaskManager.TogglePatch | src/components/TaskManager.tsx:96-98 | the toggle sends only `completed`, negated |
| TaskManager.EditFormOf | src/components/TaskManager.tsx:100-107 | the edit form copies the task's title, description and completion |
| TaskManager.UntouchedEditIsNoOp | src/components/TaskManager.tsx:100-113 | saving an untouched edit form changes only the modification time |
| TaskManager.ToggleTwiceRestores | src/components/TaskManager.tsx:96-98 | toggling twice restores the task apart from its modification time |
| TaskManager.TaskManagerState.constructor | src/components/TaskManager.tsx:14-19 | an empty list, an empty create form, no editing |
| TaskManager.TaskManagerState.FetchTasks | src/components/TaskManager.tsx:25-38 | GET `/api/tasks`; on success the list becomes the server's, otherwise it stays |
| TaskManager.TaskManagerState.CreateTask | src/components/TaskManager.tsx:40-62 | nothing is sent for a blank field; otherwise POST the form, and on success append the server's task and clear the form |
| TaskManager.TaskManagerState.UpdateTask | src/components/TaskManager.tsx:64-80 | PUT the patch; on success replace by id and close the editor; on failure nothing changes |
| TaskManager.TaskManagerState.DeleteTask | src/components/TaskManager.tsx:82-94 | DELETE; on success remove every task with the id; on failure nothing changes |
| TaskManager.TaskManagerState.ToggleComplete | src/components/TaskManager.tsx:96-98 | sends only the negated flag and reconciles as an update: on success the task is replaced by id and any open editor is closed with its form reset; on failure nothing changes |
| TaskManager.TaskManagerState.StartEditing | src/components/TaskManager.tsx:100-107 | opens the editor on the task, with the form copied from it |
| TaskManager.TaskManagerState.SaveEdit | src/components/TaskManager.tsx:109-113 | sends nothing and changes nothing when no task is being edited; otherwise sends the form as an update of that task, and on success replaces it by id and closes the editor with the form reset, while on failure the list, editor and form stay |
| ApiExplorer.BodiesOnlyWhereExpected | src/components/ApiExplorer.tsx:21-76 | every catalog endpoint that takes a body is POST or PUT and has a template |
| ApiExplorer.StatusColor | src/components/ApiExplorer.tsx:151-158 | green exactly for 200–299, yellow exactly for 400–499, red exactly for 500 and above, gray for everything else |
| ApiExplorer.FirstWithMethod | src/components/ApiExplorer.tsx:207 | the first endpoint with the method, or none when no endpoint has it |
| ApiExplorer.PickerChoices | src/components/ApiExplorer.tsx:207 | the picker selects the entries "Server Status", "Create Task", "Update Task" and "Delete Task" |
| ApiExplorer.PlanRequest | src/components/ApiExplorer.tsx:94-124 | nothing happens exactly without an endpoint and URL; the URL falls back from the text box to the path; the method defaults to GET; a body is attached exactly for a non-GET with non-blank text, and only if it parses; otherwise the result is the client error |
| ApiExplorer.CustomUrlOnly | src/components/ApiExplorer.tsx:101-102 | without a selected endpoint the request is a bodiless GET to the typed URL |
| ApiExplorer.LocalErrorsAreGray | src/components/ApiExplorer.tsx:117-158 | client and network errors are shown in gray |
| ApiExplorer.ApiExplorerState.constructor | src/components/ApiExplorer.tsx:79-84 | nothing selected, empty URL and body, no response or timing |
| ApiExplorer.ApiExplorerState.SelectEndpoint | src/components/ApiExplorer.tsx:86-92 | selects the endpoint, sets the URL to its path and the body to its template or `''`, and clears the response and timing |
| ApiExplorer.ApiExplorerState.PickMethod | src/components/ApiExplorer.tsx:207 | only the selection changes, to the picker's choice |
| ApiExplorer.ApiExplorerState.ExecuteRequest | src/components/ApiExplorer.tsx:94-149 | follows the plan: no effect, the client error without a request, or the request sent with the timing and the network's answer or error recorded |
| HomePage.UptimeParts | src/app/page.tsx:38-50 | the hours form exactly from 3600 whole seconds, the minutes form exactly from 60 to 3599, the seconds form below 60 |
| HomePage.FormatUptime | src/app/page.tsx:38-50 | the text is "<s>s" below a minute, "<m>m <s>s" below an hour, and "<h>h <m>m <s>s" from an hour, with whole seconds, minutes and hours by floor division and minutes and seconds modulo 60 |
| HomePage.UptimePartsExact | src/app/page.tsx:39-47 | the shown components add up to the whole seconds, and minutes and seconds are below 60 where shown beside a larger unit |
| HomePage.UnderOneSecond | src/app/page.tsx:39-49 | any uptime under 1000 ms reads "0s" |
| CrossChecks.CatalogMatchesServer | src/components/McpClient.tsx:12-85 | the client's catalog and the server's switch name the same seven tools |
| CrossChecks.ManagerFormPassesRoute | src/components/TaskManager.tsx:41 | a form the task manager sends passes the route's presence check |
| CrossChecks.RouteAcceptsBlankTitle | src/app/api/tasks/route.ts:49 | the route accepts a title of spaces that the task manager would not send |
| CrossChecks.ToolCreateWithoutArguments | src/lib/mcp-server.ts:147-155 | `create_task` without arguments stores a task with an empty title and description |
| CrossChecks.StaleClockDuplicatesId | src/lib/mcp-server.ts:148 | a clock reading of 1 gives an id that duplicates a seeded id |
| CrossChecks.DeleteSeededTask | src/lib/mcp-server.ts:190-204 | deleting "2" from the seeded store returns it and leaves only task "1" |
| CrossChecks.CreateCompleteList | src/lib/mcp-server.ts:146-188 | create, complete, list: the new task is appended, completed, with its text kept and the seed untouched |
| CrossChecks.StoresAreSeparate | src/lib/mcp-server.ts:9-10 | a task created through `POST /api/tasks` on the route's store is not in the tool server's list, which still holds just the seed |
| CrossChecks.UpdateWithoutId | src/lib/mcp-server.ts:165-169 | an update without an id fails "Task not found" and the list keeps its size |
| CrossChecks.PostThenGet | src/app/api/tasks/route.ts:25-74 | POST then GET reports "Retrieved 3 tasks" with the created task last |
| CrossChecks.ManagerDeleteMatchesServer | src/components/TaskManager.tsx:89 | when ids are unique, the client's delete reconciliation equals the server store's delete |

## Left out

- The MCP SDK wiring is not modelled: server construction, the stdio transport, `start()` and the `ListToolsRequestSchema` handler. The handler's tool list is the same as the client catalog, which `CrossChecks.CatalogMatchesServer` relates to the switch.
- Output text is not modelled: JSON text, indentation and message wording such as "Task created successfully: …". Successful tool calls return a structured payload (`ToolOutput`) instead.
- McpServer.CallTool: tool arguments are a typed record. An argument of the wrong JSON type (a number as the title, say) is not modelled. An absent argument and a `null` one are both `None`.
- McpServer.CallTool: `system_info` returns what the host reports. Process metrics and the platform are left out.
- McpServer.CallTool: `read_file` reads the path `args.path`, or `''` when it is absent. Joining it to the working directory happens inside the host's reader.
- Error values that are not `Error` instances and take the "Unknown error" wording are not modelled; errors are strings.
- TasksRoute.Get: the 500 branch is not modelled, since nothing in the modelled body can throw.
- TasksRoute.Post: a title or description that is present but not a string is not modelled. The body's fields are optional strings.
- TasksRoute.Post: a JSON body that is not an object (such as `null`) is not modelled. In the source, reading `body.title` then throws and the route answers 500 with the error's message.
- FileReadRoute.Post: a `path` that is truthy but not a string is not modelled. A number makes `includes` throw, giving 500; an array holding `'..'` gives 400, while any other array, a boolean or an object makes `includes` or `startsWith` throw, giving 500. A JSON body that is not an object, which also gives 500, is not modelled either. The request's path is an optional string.
- FileReadRoute.Post: the file's content and size come from one reader parameter. `readFile`, `stat` and the path join are I/O.
- McpClient.SimulateToolExecution: the result is the request the client sends. The server's reply and a failure of `fetch` or of reading its JSON are not modelled.
- McpClient.ExecuteOutcome: parsed parameters are a map from keys to values. JSON text that parses to something other than an object is not modelled.
- Numbers in the client's parameters are integers, and their text is `Decimal`'s. Floating-point values are not modelled, nor is the exponent notation JavaScript uses from 10^21 on (also for clock readings, which stay far below it).
- McpClient.McpClientState.SelectTool: example keys follow the catalog's property order. JSON text is produced by a stringify parameter.
- ApiExplorer.ApiExplorerState.ExecuteRequest: response headers and the response body are not kept. The measured time is a parameter.
- Direct edits of text fields (`setCustomUrl`, `setRequestBody`, `setParameters`, the task forms) are not modelled. They are plain assignments to the fields.
- Loading and creating flags, rendering, and React's asynchronous state updates are not modelled. This includes handlers that read a list captured before an earlier update.
- Each call takes one clock reading. In the source, `Date.now()` and `new Date()` are separate readings.
- `src/app/api/tasks/[id]/route.ts`, `src/app/api/files/route.ts` and `src/app/api/status/route.ts` are not part of this model. The client's update and delete requests go to the first of these.
- `formatBytes` and the thirty-second status polling of the home page are not modelled: they are floating-point formatting and a timer.
