/** The record shapes shared by the HTTP routes, the tool server and the
    browser components: tasks, patches, response envelopes, request
    descriptors, untyped JSON parameters and tool schemas. */
module Types {
  import opened Basics

  /** Milliseconds since the epoch (what `new Date()` and `Date.now()` read). */
  type Timestamp = nat

  datatype Task = Task(
    id: string,
    title: string,
    description: string,
    completed: bool,
    createdAt: Timestamp,
    updatedAt: Timestamp)

  /** The create form: both fields are plain strings. */
  datatype CreateTaskRequest = CreateTaskRequest(title: string, description: string)

  /** A partial update: `None` is an absent (or null) field. */
  datatype UpdateTaskRequest = UpdateTaskRequest(
    title: Option<string>,
    description: Option<string>,
    completed: Option<bool>)

  const NoChange := UpdateTaskRequest(None, None, None)

  /** The uniform JSON envelope `{success, data?, error?, message?}`. */
  datatype ApiResponse<T> = ApiResponse(
    success: bool,
    data: Option<T>,
    error: Option<string>,
    message: Option<string>)

  function Succeeded<T>(data: T, message: string): ApiResponse<T> {
    ApiResponse(true, Some(data), None, Some(message))
  }

  function Failed<T>(error: string): ApiResponse<T> {
    ApiResponse(false, None, Some(error), None)
  }

  /** An HTTP status together with the JSON envelope sent with it. */
  datatype HttpReply<T> = HttpReply(status: nat, body: ApiResponse<T>)

  datatype Method = GET | POST | PUT | DELETE

  /** What a `fetch(url, {method, body})` call would send. */
  datatype HttpRequest<B> = HttpRequest(verb: Method, url: string, body: Option<B>)

  /** A JSON value as the client-side code sees it after parsing.
      `Composite` stands for an array or an object, carried with the text
      that string interpolation produces for it. */
  datatype Value = Null | Bool(b: bool) | Num(n: int) | Str(s: string) | Composite(shown: string)

  /** A parsed JSON object; a key that is absent reads as `undefined`. */
  type Params = map<string, Value>

  /** JavaScript truthiness. */
  predicate Truthy(v: Value) {
    match v
    case Null => false
    case Bool(b) => b
    case Num(n) => n != 0
    case Str(s) => s != ""
    case Composite(_) => true
  }

  /** `!!params[key]`: the key is present and its value is truthy. */
  predicate Given(p: Params, key: string) {
    key in p && Truthy(p[key])
  }

  /** The text a template literal `${v}` produces. */
  function Interpolate(v: Value): string {
    match v
    case Null => "null"
    case Bool(b) => if b then "true" else "false"
    case Num(n) => if n < 0 then "-" + Decimal(-n) else Decimal(n)
    case Str(s) => s
    case Composite(shown) => shown
  }

  /** One entry of a tool's `properties` object, in declaration order. */
  datatype Property = Property(name: string, kind: string, description: string)

  datatype Schema = Schema(kind: string, properties: seq<Property>, required: seq<string>)

  datatype McpTool = McpTool(name: string, description: string, parameters: Schema)

  predicate DistinctNames(props: seq<Property>) {
    forall i, j :: 0 <= i < j < |props| ==> props[i].name != props[j].name
  }

  datatype ReadFileRequest = ReadFileRequest(path: Option<string>)

  datatype ReadFileResponse = ReadFileResponse(content: string, path: string, size: nat)
}
