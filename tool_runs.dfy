/** What every server-side tool handler does around its schema: parse the arguments (a
    ZodError escapes before anything is sent), send one query to the Foundry module, and shape
    the bridge's answer into the tool's response; a failed query or a failure while shaping is
    handed to the shared tool-error handler under the tool's name. */
module ToolRuns {
  import opened Js
  import opened Zod

  /** The module id under which the server addresses the Foundry module's queries. */
  const BridgeModule: string := "foundry-mcp-bridge"

  function QueryName(name: string): string {
    BridgeModule + "." + name
  }

  /** One `foundryClient.query(method, params)`. */
  datatype Request = Request(query: string, params: Value)

  datatype ToolResult =
    | Rejected(issues: seq<Issue>)                               // `schema.parse` threw
    | Answered(response: Value)
    | ToolFailed(tool: string, operation: string, error: Thrown) // `handleToolError(error, tool, operation)`

  /** The handler's result and the queries it sent, in order. */
  datatype Run = Run(result: ToolResult, sent: seq<Request>)

  /** Parse, send, shape. `params` builds the query's parameters from the parsed arguments;
      `respond` shapes the bridge's answer, given the parsed arguments. */
  function Invoke(parsed: Parse, tool: string, operation: string, queryName: string,
                  params: Value -> Value, respond: (Value, Value) -> Outcome,
                  bridge: Request -> Outcome): (r: Run)
    ensures !parsed.Ok? <==> r.result.Rejected?
    ensures !parsed.Ok? ==> r == Run(Rejected(IssuesOf(parsed)), [])
    ensures parsed.Ok? ==> r.sent == [Request(QueryName(queryName), params(parsed.value))]
    ensures parsed.Ok? ==>
      (r.result.Answered? <==>
        bridge(r.sent[0]).Returned? && respond(parsed.value, bridge(r.sent[0]).value).Returned?)
    ensures r.result.Answered? ==> r.result.response == respond(parsed.value, bridge(r.sent[0]).value).value
    ensures r.result.ToolFailed? ==> r.result.tool == tool && r.result.operation == operation
  {
    if !parsed.Ok? then Run(Rejected(IssuesOf(parsed)), [])
    else
      var request := Request(QueryName(queryName), params(parsed.value));
      var result := match bridge(request)
        case Threw(t) => ToolFailed(tool, operation, t)
        case Returned(answer) =>
          match respond(parsed.value, answer)
          case Returned(response) => Answered(response)
          case Threw(t) => ToolFailed(tool, operation, t);
      Run(result, [request])
  }

  /** A response built from the bridge's answer, whose first step reads `result.<firstKey>`:
      a null or undefined answer throws the TypeError of that read instead. */
  function Reading(result: Value, firstKey: string, response: Value): (r: Outcome)
    ensures r.Threw? <==> Nullish(result)
    ensures r.Threw? ==> r.thrown == Error(ReadErrorMessage(result, firstKey))
    ensures r.Returned? ==> r.value == response
  {
    if Nullish(result) then Threw(Error(ReadErrorMessage(result, firstKey))) else Returned(response)
  }

  /** `v.length` (the count of UTF-16 code units of a string is taken to be its length in
      characters). */
  function LengthOf(v: Value): (r: Outcome)
    ensures r.Threw? <==> Nullish(v)
    ensures v.Arr? ==> r == Returned(Num(|v.items|))
  {
    match v
    case Undefined => Threw(Error(ReadErrorMessage(v, "length")))
    case Null => Threw(Error(ReadErrorMessage(v, "length")))
    case Arr(items) => Returned(Num(|items|))
    case Str(s) => Returned(Num(|s|))
    case Obj(_) => Returned(Prop(v, "length"))
    case _ => Returned(Undefined)
  }

  /** `v?.length > 0` (a `length` property that is not an integer is taken to fail). */
  predicate LengthAboveZero(v: Value) {
    match v
    case Arr(items) => |items| > 0
    case Str(s) => |s| > 0
    case Obj(_) => Prop(v, "length").Num? && Prop(v, "length").n > 0
    case _ => false
  }

  /** `"${v}"` inside a message. */
  function Quoted(v: Value): string {
    "\"" + Text(v) + "\""
  }
}
