/** The API explorer component: its endpoint catalog, the method picker,
    how a request is put together from the selection, the URL box and the
    body text, and the colour given to a response status. */
module ApiExplorer {
  import opened Basics
  import opened Types

  /** `requiresBody?` absent reads as `false`, `bodyTemplate?` absent as `None`. */
  datatype Endpoint = Endpoint(
    name: string,
    verb: Method,
    path: string,
    description: string,
    requiresBody: bool,
    bodyTemplate: Option<string>)

  const ApiEndpoints: seq<Endpoint> := [
    Endpoint("Server Status", GET, "/api/status", "Get server status and system information", false, None),
    Endpoint("List Tasks", GET, "/api/tasks", "Retrieve all tasks", false, None),
    Endpoint("Create Task", POST, "/api/tasks", "Create a new task", true,
      Some("{\n  \"title\": \"Sample Task\",\n  \"description\": \"This is a sample task description\"\n}")),
    Endpoint("Get Task", GET, "/api/tasks/{id}", "Get a specific task by ID", false, None),
    Endpoint("Update Task", PUT, "/api/tasks/{id}", "Update an existing task", true,
      Some("{\n  \"title\": \"Updated Task Title\",\n  \"description\": \"Updated description\",\n  \"completed\": true\n}")),
    Endpoint("Delete Task", DELETE, "/api/tasks/{id}", "Delete a task", false, None),
    Endpoint("List Files", GET, "/api/files", "List files in the workspace", false, None),
    Endpoint("Read File", POST, "/api/files/read", "Read contents of a file", true,
      Some("{\n  \"path\": \"package.json\"\n}"))
  ]

  /** Every endpoint that takes a body is a POST or PUT and has a template. */
  lemma BodiesOnlyWhereExpected()
    ensures forall i :: 0 <= i < |ApiEndpoints| && ApiEndpoints[i].requiresBody ==>
      ApiEndpoints[i].verb in {POST, PUT} && ApiEndpoints[i].bodyTemplate.Some?
  {
  }

  // ---------------------------------------------------------------------------
  // Status colour
  // ---------------------------------------------------------------------------

  /** `response.status`: a number from the server, a string such as
      `'client_error'` set by the component, or absent. */
  datatype StatusValue = NoStatus | NumberStatus(n: int) | TextStatus(s: string)

  datatype Color = Green | Yellow | Red | Gray

  /** `getStatusColor`. */
  function StatusColor(status: StatusValue): (c: Color)
    ensures c == Green <==> status.NumberStatus? && 200 <= status.n < 300
    ensures c == Yellow <==> status.NumberStatus? && 400 <= status.n < 500
    ensures c == Red <==> status.NumberStatus? && status.n >= 500
    ensures c == Gray <==> !status.NumberStatus? || status.n < 200 || 300 <= status.n < 400
  {
    if status.NumberStatus? && status.n >= 200 && status.n < 300 then Green
    else if status.NumberStatus? && status.n >= 400 && status.n < 500 then Yellow
    else if status.NumberStatus? && status.n >= 500 then Red
    else Gray
  }

  // ---------------------------------------------------------------------------
  // Method picker
  // ---------------------------------------------------------------------------

  /** `endpoints.find(e => e.method === verb)`, as an index. */
  function FirstWithMethod(endpoints: seq<Endpoint>, verb: Method): (r: Option<nat>)
    ensures r.Some? ==> r.value < |endpoints| && endpoints[r.value].verb == verb
    ensures r.Some? ==> forall j :: 0 <= j < r.value ==> endpoints[j].verb != verb
    ensures r.None? ==> forall j :: 0 <= j < |endpoints| ==> endpoints[j].verb != verb
  {
    if endpoints == [] then None
    else if endpoints[0].verb == verb then Some(0)
    else match FirstWithMethod(endpoints[1..], verb)
      case None => None
      case Some(k) => Some(k + 1)
  }

  /** The endpoint the method picker selects (`|| null` is `None`). */
  function PickedEndpoint(verb: Method): Option<Endpoint> {
    match FirstWithMethod(ApiEndpoints, verb)
    case None => None
    case Some(i) => Some(ApiEndpoints[i])
  }

  /** Each method selects the first catalog entry that uses it. */
  lemma PickerChoices()
    ensures PickedEndpoint(GET) == Some(ApiEndpoints[0])
    ensures PickedEndpoint(POST) == Some(ApiEndpoints[2])
    ensures PickedEndpoint(PUT) == Some(ApiEndpoints[4])
    ensures PickedEndpoint(DELETE) == Some(ApiEndpoints[5])
  {
    assert ApiEndpoints[1..][1..] == ApiEndpoints[2..];
    assert ApiEndpoints[2..][1..] == ApiEndpoints[3..];
    assert ApiEndpoints[3..][1..] == ApiEndpoints[4..];
    assert ApiEndpoints[4..][1..] == ApiEndpoints[5..];
  }

  // ---------------------------------------------------------------------------
  // Building the request
  // ---------------------------------------------------------------------------

  datatype Plan = Skip | InvalidJson | Fetch(request: HttpRequest<string>)

  /** The URL: the text box, or else the selected endpoint's path. */
  function UrlOf(selected: Option<Endpoint>, customUrl: string): string {
    if customUrl != "" then customUrl
    else if selected.Some? then selected.value.path
    else ""
  }

  /** The method: the selected endpoint's, or else GET. */
  function MethodOf(selected: Option<Endpoint>): Method {
    if selected.Some? then selected.value.verb else GET
  }

  /** The decisions `executeRequest` makes before calling `fetch`;
      `isJson` is whether `JSON.parse` accepts a text. */
  function PlanRequest(selected: Option<Endpoint>, customUrl: string, requestBody: string, isJson: string -> bool)
    : (r: Plan)
    ensures r.Skip? <==> selected.None? && customUrl == ""
    ensures r.InvalidJson? <==>
      && !r.Skip? && MethodOf(selected) != GET && !IsBlank(requestBody) && !isJson(requestBody)
    ensures r.Fetch? ==> r.request.url == UrlOf(selected, customUrl)
    ensures r.Fetch? ==> r.request.verb == MethodOf(selected)
    ensures r.Fetch? ==> (r.request.body.Some? <==> MethodOf(selected) != GET && !IsBlank(requestBody))
    ensures r.Fetch? && r.request.body.Some? ==> r.request.body.value == requestBody && isJson(requestBody)
  {
    if selected.None? && customUrl == "" then Skip
    else
      var url := UrlOf(selected, customUrl);
      var verb := MethodOf(selected);
      if verb != GET && !IsBlank(requestBody) then
        if isJson(requestBody) then Fetch(HttpRequest(verb, url, Some(requestBody)))
        else InvalidJson
      else Fetch(HttpRequest(verb, url, None))
  }

  /** Without a selected endpoint the request is a bodiless GET to the typed URL. */
  lemma CustomUrlOnly(customUrl: string, requestBody: string, isJson: string -> bool)
    requires customUrl != ""
    ensures PlanRequest(None, customUrl, requestBody, isJson) == Fetch(HttpRequest(GET, customUrl, None))
  {
  }

  /** What `fetch` (and reading its JSON) came back with. */
  datatype FetchResult = Threw(message: string) | Answered(status: int, statusText: string)

  datatype ExplorerResponse =
    | NoResponse
    | ClientError(error: string)
    | NetworkError(error: string)
    | Answer(status: int, statusText: string)

  /** The `status` field of the shown response. */
  function StatusOf(response: ExplorerResponse): StatusValue {
    match response
    case NoResponse => NoStatus
    case ClientError(_) => TextStatus("client_error")
    case NetworkError(_) => TextStatus("network_error")
    case Answer(s, _) => NumberStatus(s)
  }

  /** Errors raised in the browser are always shown in gray. */
  lemma LocalErrorsAreGray(response: ExplorerResponse)
    requires response.ClientError? || response.NetworkError?
    ensures StatusColor(StatusOf(response)) == Gray
  {
  }

  class ApiExplorerState {
    var selectedEndpoint: Option<Endpoint>
    var customUrl: string
    var requestBody: string
    var response: ExplorerResponse
    var responseTime: Option<nat>

    constructor ()
      ensures selectedEndpoint == None && customUrl == "" && requestBody == ""
      ensures response == NoResponse && responseTime == None
    {
      selectedEndpoint, customUrl, requestBody := None, "", "";
      response, responseTime := NoResponse, None;
    }

    /** `selectEndpoint`: the URL box gets the path, the body its template. */
    method SelectEndpoint(endpoint: Endpoint)
      modifies this
      ensures selectedEndpoint == Some(endpoint) && customUrl == endpoint.path
      ensures requestBody == endpoint.bodyTemplate.GetOr("")
      ensures response == NoResponse && responseTime == None
    {
      selectedEndpoint := Some(endpoint);
      customUrl := endpoint.path;
      requestBody := endpoint.bodyTemplate.GetOr("");
      response := NoResponse;
      responseTime := None;
    }

    /** The method picker: only the selection changes, not the URL box. */
    method PickMethod(verb: Method)
      modifies this
      ensures selectedEndpoint == PickedEndpoint(verb)
      ensures customUrl == old(customUrl) && requestBody == old(requestBody)
      ensures response == old(response) && responseTime == old(responseTime)
    {
      selectedEndpoint := PickedEndpoint(verb);
    }

    /** `executeRequest`. `result` is what the network gave back and
      `elapsed` the measured round trip. */
    method ExecuteRequest(isJson: string -> bool, result: FetchResult, elapsed: nat)
      returns (sent: Option<HttpRequest<string>>)
      modifies this
      ensures selectedEndpoint == old(selectedEndpoint) && customUrl == old(customUrl)
      ensures requestBody == old(requestBody)
      ensures match PlanRequest(old(selectedEndpoint), old(customUrl), old(requestBody), isJson)
        case Skip =>
          sent == None && response == old(response) && responseTime == old(responseTime)
        case InvalidJson =>
          sent == None && response == ClientError("Invalid JSON in request body") && responseTime == old(responseTime)
        case Fetch(request) =>
          && sent == Some(request) && responseTime == Some(elapsed)
          && response == (match result
                          case Threw(m) => NetworkError(m)
                          case Answered(s, t) => Answer(s, t))
    {
      var plan := PlanRequest(selectedEndpoint, customUrl, requestBody, isJson);
      match plan {
        case Skip =>
          sent := None;
        case InvalidJson =>
          sent := None;
          response := ClientError("Invalid JSON in request body");
        case Fetch(request) =>
          sent := Some(request);
          responseTime := Some(elapsed);
          match result {
            case Threw(m) => response := NetworkError(m);
            case Answered(s, t) => response := Answer(s, t);
          }
      }
    }
  }
}
