/** The browser-side MCP client: the static tool catalog, example parameters
    generated from a tool's schema, and the simulated execution that turns a
    tool call into an HTTP request (or a failure envelope, never an
    exception). */
module McpClient {
  import opened Basics
  import opened Types

  const McpTools: seq<McpTool> := [
    McpTool("list_tasks", "Get all tasks from the task manager", Schema("object", [], [])),
    McpTool("create_task", "Create a new task", Schema("object", [
      Property("title", "string", "Task title"),
      Property("description", "string", "Task description")
    ], ["title", "description"])),
    McpTool("update_task", "Update an existing task", Schema("object", [
      Property("id", "string", "Task ID"),
      Property("title", "string", "Task title"),
      Property("description", "string", "Task description"),
      Property("completed", "boolean", "Task completion status")
    ], ["id"])),
    McpTool("delete_task", "Delete a task", Schema("object", [
      Property("id", "string", "Task ID")
    ], ["id"])),
    McpTool("read_file", "Read contents of a file", Schema("object", [
      Property("path", "string", "File path to read")
    ], ["path"])),
    McpTool("list_files", "List files in the workspace", Schema("object", [], [])),
    McpTool("system_info", "Get system information", Schema("object", [], []))
  ]

  predicate InCatalog(name: string) {
    exists i :: 0 <= i < |McpTools| && McpTools[i].name == name
  }

  predicate Declares(tool: McpTool, key: string) {
    exists j :: 0 <= j < |tool.parameters.properties| && tool.parameters.properties[j].name == key
  }

  /** Seven tools with distinct names, distinct property names, and every
      required parameter among the declared properties. */
  lemma CatalogWellFormed()
    ensures |McpTools| == 7
    ensures forall i, j :: 0 <= i < j < |McpTools| ==> McpTools[i].name != McpTools[j].name
    ensures forall i :: 0 <= i < |McpTools| ==> DistinctNames(McpTools[i].parameters.properties)
    ensures forall i, k :: 0 <= i < |McpTools| && k in McpTools[i].parameters.required ==> Declares(McpTools[i], k)
  {
    assert Declares(McpTools[1], "title") by { assert McpTools[1].parameters.properties[0].name == "title"; }
    assert Declares(McpTools[1], "description") by { assert McpTools[1].parameters.properties[1].name == "description"; }
    assert Declares(McpTools[2], "id") by { assert McpTools[2].parameters.properties[0].name == "id"; }
    assert Declares(McpTools[3], "id") by { assert McpTools[3].parameters.properties[0].name == "id"; }
    assert Declares(McpTools[4], "path") by { assert McpTools[4].parameters.properties[0].name == "path"; }
  }

  // ---------------------------------------------------------------------------
  // Example parameters (selectTool)
  // ---------------------------------------------------------------------------

  /** The example value for one property, or `None` for a type other than
      string or boolean (such a key is left out of the example). */
  function ExampleValue(key: string, kind: string): Option<Value> {
    if kind == "string" then
      Some(Str(
        if key == "id" then "1"
        else if key == "title" then "Sample Task"
        else if key == "description" then "Sample task description"
        else if key == "path" then "package.json"
        else "sample value"))
    else if kind == "boolean" then Some(Bool(true))
    else None
  }

  /** `example` holds exactly the keys of the string and boolean properties,
      each with its example value. */
  ghost predicate IsExampleFor(example: Params, props: seq<Property>) {
    && (forall k :: k in example <==>
          exists i :: 0 <= i < |props| && props[i].name == k && ExampleValue(k, props[i].kind).Some?)
    && (forall i :: 0 <= i < |props| && ExampleValue(props[i].name, props[i].kind).Some? ==>
          props[i].name in example && example[props[i].name] == ExampleValue(props[i].name, props[i].kind).value)
  }

  /** The `forEach` that builds the example object key by key. */
  method ExampleParams(props: seq<Property>) returns (example: Params)
    requires DistinctNames(props)
    ensures IsExampleFor(example, props)
  {
    example := map[];
    for n := 0 to |props|
      invariant forall k :: k in example <==>
        exists i :: 0 <= i < n && props[i].name == k && ExampleValue(k, props[i].kind).Some?
      invariant forall i :: 0 <= i < n && ExampleValue(props[i].name, props[i].kind).Some? ==>
        props[i].name in example && example[props[i].name] == ExampleValue(props[i].name, props[i].kind).value
    {
      var key, kind := props[n].name, props[n].kind;
      match ExampleValue(key, kind) {
        case Some(v) => example := example[key := v];
        case None =>
      }
    }
  }

  /** The example object is determined by the properties. */
  lemma ExampleIsUnique(a: Params, b: Params, props: seq<Property>)
    requires IsExampleFor(a, props) && IsExampleFor(b, props)
    ensures a == b
  {
    forall k | k in a ensures k in b && a[k] == b[k] {
      var i :| 0 <= i < |props| && props[i].name == k && ExampleValue(k, props[i].kind).Some?;
    }
  }

  // ---------------------------------------------------------------------------
  // Simulated execution
  // ---------------------------------------------------------------------------

  /** Either the failure envelope `{success: false, error}` or the request the
      client sends (its reply becomes the tool's response). */
  datatype ClientOutcome = Failure(error: string) | Send(request: HttpRequest<Params>)

  function TaskUrl(id: Value): string {
    "/api/tasks/" + Interpolate(id)
  }

  /** `simulateToolExecution`: validation by truthiness, then routing. */
  function SimulateToolExecution(toolName: string, params: Params): (r: ClientOutcome)
    ensures r.Send? ==> InCatalog(toolName)
    ensures !InCatalog(toolName) ==> r == Failure("Unknown tool: " + toolName)
    ensures toolName == "list_tasks" ==> r == Send(HttpRequest(GET, "/api/tasks", None))
    ensures toolName == "list_files" ==> r == Send(HttpRequest(GET, "/api/files", None))
    ensures toolName == "system_info" ==> r == Send(HttpRequest(GET, "/api/status", None))
    ensures toolName == "create_task" ==>
      if Given(params, "title") && Given(params, "description")
      then r == Send(HttpRequest(POST, "/api/tasks", Some(params)))
      else r == Failure("Title and description are required")
    ensures toolName == "update_task" ==>
      if Given(params, "id")
      then r == Send(HttpRequest(PUT, TaskUrl(params["id"]), Some(params - {"id"})))
      else r == Failure("Task ID is required")
    ensures toolName == "delete_task" ==>
      if Given(params, "id")
      then r == Send(HttpRequest(DELETE, TaskUrl(params["id"]), None))
      else r == Failure("Task ID is required")
    ensures toolName == "read_file" ==>
      if Given(params, "path")
      then r == Send(HttpRequest(POST, "/api/files/read", Some(params)))
      else r == Failure("File path is required")
  {
    assert McpTools[0].name == "list_tasks" && McpTools[1].name == "create_task";
    assert McpTools[2].name == "update_task" && McpTools[3].name == "delete_task";
    assert McpTools[4].name == "read_file" && McpTools[5].name == "list_files";
    assert McpTools[6].name == "system_info";
    match toolName
    case "list_tasks" => Send(HttpRequest(GET, "/api/tasks", None))
    case "create_task" =>
      if !Given(params, "title") || !Given(params, "description") then Failure("Title and description are required")
      else Send(HttpRequest(POST, "/api/tasks", Some(params)))
    case "update_task" =>
      if !Given(params, "id") then Failure("Task ID is required")
      else Send(HttpRequest(PUT, TaskUrl(params["id"]), Some(params - {"id"})))
    case "delete_task" =>
      if !Given(params, "id") then Failure("Task ID is required")
      else Send(HttpRequest(DELETE, TaskUrl(params["id"]), None))
    case "read_file" =>
      if !Given(params, "path") then Failure("File path is required")
      else Send(HttpRequest(POST, "/api/files/read", Some(params)))
    case "list_files" => Send(HttpRequest(GET, "/api/files", None))
    case "system_info" => Send(HttpRequest(GET, "/api/status", None))
    case _ => Failure("Unknown tool: " + toolName)
  }

  /** Every parameter the catalog marks required is checked before any
      request is issued. */
  lemma RequiredParamsEnforced(i: nat, key: string, params: Params)
    requires i < |McpTools| && key in McpTools[i].parameters.required && !Given(params, key)
    ensures SimulateToolExecution(McpTools[i].name, params).Failure?
  {
  }

  /** The update request never carries the id in its body, and only the id
      is taken out. */
  lemma UpdateBodyOmitsOnlyId(params: Params)
    requires SimulateToolExecution("update_task", params).Send?
    ensures var body := SimulateToolExecution("update_task", params).request.body.value;
      && "id" !in body
      && forall k :: k in params && k != "id" ==> k in body && body[k] == params[k]
  {
  }

  /** The two JSON operations the component relies on, left abstract. */
  datatype Json = Json(parse: string -> Result<Params, string>, stringify: Params -> string)

  /** What `executeTool` computes: blank text means `{}`, unparsable text a
      failure carrying the parser's message. */
  function ExecuteOutcome(toolName: string, text: string, json: Json): (r: ClientOutcome)
    ensures IsBlank(text) ==> r == SimulateToolExecution(toolName, map[])
    ensures !IsBlank(text) && json.parse(text).Err? ==> r == Failure(json.parse(text).error)
    ensures !IsBlank(text) && json.parse(text).Ok? ==> r == SimulateToolExecution(toolName, json.parse(text).value)
  {
    if IsBlank(text) then SimulateToolExecution(toolName, map[])
    else match json.parse(text)
      case Err(e) => Failure(e)
      case Ok(p) => SimulateToolExecution(toolName, p)
  }

  /** With blank parameters, exactly the tools that need no parameter send a request. */
  lemma BlankParameters(toolName: string, json: Json)
    requires InCatalog(toolName)
    ensures ExecuteOutcome(toolName, "", json).Send? <==> toolName in {"list_tasks", "list_files", "system_info"}
  {
  }

  // ---------------------------------------------------------------------------
  // Component state
  // ---------------------------------------------------------------------------

  datatype ClientResponse =
    | NoResponse
    | Shown(outcome: ClientOutcome)
    | Notice(message: string, tools: Option<nat>)

  class McpClientState {
    var selectedTool: Option<McpTool>
    var parameters: string
    var response: ClientResponse
    var connected: bool

    constructor ()
      ensures selectedTool == None && parameters == "" && response == NoResponse && !connected
    {
      selectedTool, parameters, response, connected := None, "", NoResponse, false;
    }

    /** `selectTool`: select, fill in example parameters, clear the response. */
    method SelectTool(tool: McpTool, json: Json)
      requires DistinctNames(tool.parameters.properties)
      modifies this
      ensures selectedTool == Some(tool) && response == NoResponse && connected == old(connected)
      ensures |tool.parameters.properties| == 0 ==> parameters == "{}"
      ensures |tool.parameters.properties| > 0 ==>
        forall example :: IsExampleFor(example, tool.parameters.properties) ==> parameters == json.stringify(example)
    {
      selectedTool := Some(tool);
      var exampleParams := "{}";
      if |tool.parameters.properties| > 0 {
        var example := ExampleParams(tool.parameters.properties);
        exampleParams := json.stringify(example);
        forall other | IsExampleFor(other, tool.parameters.properties)
          ensures exampleParams == json.stringify(other)
        {
          ExampleIsUnique(example, other, tool.parameters.properties);
        }
      }
      parameters := exampleParams;
      response := NoResponse;
    }

    /** `executeTool`: nothing without a selected tool; otherwise the
      outcome of the simulated execution is shown. */
    method ExecuteTool(json: Json)
      modifies this
      ensures selectedTool == old(selectedTool) && parameters == old(parameters) && connected == old(connected)
      ensures old(selectedTool).None? ==> response == old(response)
      ensures old(selectedTool).Some? ==>
        response == Shown(ExecuteOutcome(old(selectedTool).value.name, old(parameters), json))
    {
      if selectedTool.None? {
        return;
      }
      response := Shown(ExecuteOutcome(selectedTool.value.name, parameters, json));
    }

    method Connect()
      modifies this
      ensures connected && response == Notice("Connected to MCP server (simulated)", Some(|McpTools|))
      ensures selectedTool == old(selectedTool) && parameters == old(parameters)
    {
      connected := true;
      response := Notice("Connected to MCP server (simulated)", Some(|McpTools|));
    }

    method Disconnect()
      modifies this
      ensures !connected && response == Notice("Disconnected from MCP server", None)
      ensures selectedTool == old(selectedTool) && parameters == old(parameters)
    {
      connected := false;
      response := Notice("Disconnected from MCP server", None);
    }
  }
}
