/**
 * The JSON-RPC 2.0 messages of the Model Context Protocol as the server sees
 * them once decoded, the results it builds, the events it broadcasts, and the
 * static descriptor of its single tool.
 */
module Protocol {
  import opened Wrappers
  import opened Json
  import opened Thoughts

  /** The protocol revision a fresh server assumes. */
  const DefaultProtocolVersion := "2025-03-26"
  /** The one tool the server offers. */
  const ToolName := "sequentialthinking"
  /** JSON-RPC 2.0 "Method not found" (section 5.1 of the JSON-RPC 2.0 Specification). */
  const MethodNotFound := -32601
  /** JSON-RPC 2.0 "Invalid params" (section 5.1), used for an unknown tool. */
  const InvalidParams := -32602

  datatype ClientInfo = ClientInfo(name: string, version: string)

  /** `Params`: the union of the fields any method's parameters may carry. */
  datatype Params = Params(
    name: string,
    arguments: map<string, Json>,
    protocolVersion: string,
    capabilities: map<string, Json>,
    clientInfo: ClientInfo)

  /** `MCPRequest`; the Go type fixes the id to an integer. */
  datatype Request = Request(id: int, methodName: string, params: Params)

  datatype RpcError = RpcError(code: int, message: string)

  /** One schema property of the tool's input. */
  datatype Property = Property(kind: string, description: string, minimum: Option<int>)

  datatype InputSchema = InputSchema(kind: string, properties: map<string, Property>, required: seq<string>)

  /**
   * The tool's prose description. The descriptor carries it by name and
   * `Text()` spells it out, so that reasoning about descriptors never has to
   * handle the long text itself.
   */
  datatype Description = SequentialThinkingDescription
  {
    function Text(): string
    {
      JoinLines(DescriptionLines)
    }
  }

  datatype Tool = Tool(name: string, description: Description, inputSchema: InputSchema)

  datatype ServerInfo = ServerInfo(name: string, version: string)

  /** `Capabilities`; absent groups are empty maps (the Go fields are omitted when empty). */
  datatype Capabilities = Capabilities(logging: map<string, Json>, tools: map<string, Json>)

  /**
   * What `processThought` reports, before it is marshalled into the text of a
   * content item: either the error object or the step summary.
   */
  datatype Payload =
    | ErrorReport(error: string, status: string)
    | StepReport(
        thoughtNumber: int,
        totalThoughts: int,
        nextThoughtNeeded: bool,
        branches: seq<string>,
        thoughtHistoryLength: nat,
        roots: seq<string>,
        clientInfo: ClientInfo,
        protocolVersion: string)

  /** `Content`: a typed item; the server only produces "text" items. */
  datatype Content = Content(kind: string, body: Payload)

  /** `ToolCallResult`; `isError` is set only on a failed call. */
  datatype ToolCallResult = ToolCallResult(content: seq<Content>, isError: Option<bool>)

  /** The result objects `handleRequest` can put in a response. */
  datatype RpcResult =
    | InitializeResult(protocolVersion: string, capabilities: Capabilities, serverInfo: ServerInfo, instructions: string)
    | ToolListResult(tools: seq<Tool>)
    | ToolCallOutcome(call: ToolCallResult)

  /** `MCPResponse`. The id is absent only in the empty response to a notification. */
  datatype Response = Response(jsonrpc: string, id: Option<int>, result: Option<RpcResult>, error: Option<RpcError>)

  /** The zero `MCPResponse{}` returned for a notification. */
  const EmptyResponse := Response("", None, None, None)

  /** The data of a broadcast event. */
  datatype EventData =
    | ThoughtEvent(formatted: string, raw: ThoughtData)
    | InitializeEvent(client: ClientInfo, version: string)
    | HandshakeEvent(message: string)

  /** `MCPMessage`: one event queued for an event-stream listener. */
  datatype Message = Message(kind: string, data: EventData)

  /** The two method names the server treats as one-way notifications. */
  predicate IsNotification(methodName: string)
  {
    methodName == "notifications/initialized" || methodName == "initialized"
  }

  /** The branch of the dispatcher's switch a request takes. */
  datatype Route = InitializeRoute | NotificationRoute | ListToolsRoute | CallToolRoute | UnknownToolRoute | UnknownMethodRoute

  /**
   * Classifies a request by method name (and, for `tools/call`, by tool name)
   * exactly as the dispatcher's switch does.
   */
  function RouteOf(req: Request): (r: Route)
    ensures r == InitializeRoute <==> req.methodName == "initialize"
    ensures r == NotificationRoute <==> IsNotification(req.methodName)
    ensures r == ListToolsRoute <==> req.methodName == "tools/list"
    ensures r == CallToolRoute <==> req.methodName == "tools/call" && req.params.name == ToolName
    ensures r == UnknownToolRoute <==> req.methodName == "tools/call" && req.params.name != ToolName
    ensures r == UnknownMethodRoute <==>
              !(req.methodName in {"initialize", "tools/list", "tools/call"} || IsNotification(req.methodName))
  {
    if req.methodName == "initialize" then InitializeRoute
    else if IsNotification(req.methodName) then NotificationRoute
    else if req.methodName == "tools/list" then ListToolsRoute
    else if req.methodName == "tools/call" then
      if req.params.name == ToolName then CallToolRoute else UnknownToolRoute
    else UnknownMethodRoute
  }

  /**
   * The protocol-level error `handleRequest` answers a request with, if any:
   * "Invalid params" for `tools/call` naming another tool, "Method not found"
   * for any method the dispatcher does not know, and none otherwise.
   */
  function ProtocolError(req: Request): (e: Option<RpcError>)
    ensures e.Some? ==> e.value.code == MethodNotFound || e.value.code == InvalidParams
    ensures (e.Some? && e.value.code == InvalidParams) <==>
              req.methodName == "tools/call" && req.params.name != ToolName
    ensures (e.Some? && e.value.code == MethodNotFound) <==>
              !(req.methodName in {"initialize", "tools/list", "tools/call"} || IsNotification(req.methodName))
  {
    match RouteOf(req)
    case UnknownToolRoute => Some(RpcError(InvalidParams, "Unknown tool: " + req.params.name))
    case UnknownMethodRoute => Some(RpcError(MethodNotFound, "Method not found: " + req.methodName))
    case _ => None
  }

  /** The soft failure of a tool call: one text item holding the error, flagged as an error. */
  function FailedCall(e: FieldError): (r: ToolCallResult)
    ensures r.isError == Some(true) && |r.content| == 1
    ensures r.content[0].kind == "text" && r.content[0].body == ErrorReport(e.Message(), "failed")
  {
    ToolCallResult([Content("text", ErrorReport(e.Message(), "failed"))], Some(true))
  }

  /** The result of a successful `initialize`, echoing the client's protocol version. */
  function InitializeReply(protocolVersion: string, serverVersion: string): (r: RpcResult)
    ensures r.InitializeResult? && r.protocolVersion == protocolVersion
    ensures r.serverInfo == ServerInfo(ToolName, serverVersion)
    ensures "listChanged" in r.capabilities.tools && r.capabilities.tools["listChanged"] == JBool(true)
  {
    InitializeResult(
      protocolVersion,
      Capabilities(map[], map["listChanged" := JBool(true)]),
      ServerInfo(ToolName, serverVersion),
      Instructions)
  }

  /** The greeting returned by `initialize`. */
  const Instructions := "Welcome to the Sequential Thinking MCP Server! Use the 'sequentialthinking' tool to process your thoughts step by step."

  /**
   * The nested `capabilities.roots.roots` array of an `initialize` request, when
   * `roots` is an object and its `roots` member is an array.
   */
  function RootsList(capabilities: map<string, Json>): (r: Option<seq<Json>>)
    ensures r.Some? <==>
              "roots" in capabilities && capabilities["roots"].JObj?
              && "roots" in capabilities["roots"].fields && capabilities["roots"].fields["roots"].JArr?
    ensures r.Some? ==> capabilities["roots"].fields["roots"] == JArr(r.value)
  {
    if "roots" in capabilities then
      match capabilities["roots"]
      case JObj(fields) =>
        if "roots" in fields then
          match fields["roots"]
          case JArr(items) => Some(items)
          case _ => None
        else None
      case _ => None
    else None
  }

  /** The input properties of the tool and their JSON types. */
  const PropertyKinds: map<string, string> := map[
    "thought" := "string",
    "nextThoughtNeeded" := "boolean",
    "thoughtNumber" := "integer",
    "totalThoughts" := "integer",
    "isRevision" := "boolean",
    "revisesThought" := "integer",
    "branchFromThought" := "integer",
    "branchId" := "string",
    "needsMoreThoughts" := "boolean"]

  /** The arguments a caller must always supply. */
  const RequiredArguments := ["thought", "nextThoughtNeeded", "thoughtNumber", "totalThoughts"]

  /**
   * The input schema of the tool. Every required argument is a declared
   * property and is one of the four arguments `Validate` insists on; every
   * integer property has minimum 1 and no other property has a minimum.
   */
  function ToolSchema(): (schema: InputSchema)
    ensures schema.kind == "object"
    ensures schema.properties.Keys == PropertyKinds.Keys
    ensures forall k :: k in schema.properties ==> schema.properties[k].kind == PropertyKinds[k]
    ensures forall k :: k in schema.properties ==>
              (schema.properties[k].minimum == if PropertyKinds[k] == "integer" then Some(1) else None)
    ensures forall k :: k in schema.required ==> k in schema.properties && IsRequiredKey(k)
    ensures forall k :: IsRequiredKey(k) ==> k in schema.required
  {
    InputSchema("object", map[
      "thought" := Property("string", "Your current thinking step", None),
      "nextThoughtNeeded" := Property("boolean", "Whether another thought step is needed", None),
      "thoughtNumber" := Property("integer", "Current thought number", Some(1)),
      "totalThoughts" := Property("integer", "Estimated total thoughts needed", Some(1)),
      "isRevision" := Property("boolean", "Whether this revises previous thinking", None),
      "revisesThought" := Property("integer", "Which thought is being reconsidered", Some(1)),
      "branchFromThought" := Property("integer", "Branching point thought number", Some(1)),
      "branchId" := Property("string", "Branch identifier", None),
      "needsMoreThoughts" := Property("boolean", "If more thoughts are needed", None)],
      RequiredArguments)
  }

  /** `getSequentialThinkingTool`: the static descriptor listed by `tools/list`. */
  function SequentialThinkingTool(): Tool
  {
    Tool(ToolName, SequentialThinkingDescription, ToolSchema())
  }

  /** Joins lines with newlines, as a multi-line Go raw string holds them. */
  function JoinLines(lines: seq<string>): string
  {
    if lines == [] then ""
    else if |lines| == 1 then lines[0]
    else lines[0] + "\n" + JoinLines(lines[1..])
  }

  /** The lines of the tool's description. */
  const DescriptionLines: seq<string> := [
    "A detailed tool for dynamic and reflective problem-solving through thoughts.",
    "This tool helps analyze problems through a flexible thinking process that can adapt and evolve.",
    "Each thought can build on, question, or revise previous insights as understanding deepens.",
    "",
    "When to use this tool:",
    "- Breaking down complex problems into steps",
    "- Planning and design with room for revision",
    "- Analysis that might need course correction",
    "- Problems where the full scope might not be clear initially",
    "- Problems that require a multi-step solution",
    "- Tasks that need to maintain context over multiple steps",
    "- Situations where irrelevant information needs to be filtered out",
    "",
    "Key features:",
    "- You can adjust total_thoughts up or down as you progress",
    "- You can question or revise previous thoughts",
    "- You can add more thoughts even after reaching what seemed like the end",
    "- You can express uncertainty and explore alternative approaches",
    "- Not every thought needs to build linearly - you can branch or backtrack",
    "- Generates a solution hypothesis",
    "- Verifies the hypothesis based on the Chain of Thought steps",
    "- Repeats the process until satisfied",
    "- Provides a correct answer",
    "",
    "Parameters explained:",
    "- thought: Your current thinking step, which can include:",
    "* Regular analytical steps",
    "* Revisions of previous thoughts",
    "* Questions about previous decisions",
    "* Realizations about needing more analysis",
    "* Changes in approach",
    "* Hypothesis generation",
    "* Hypothesis verification",
    "- next_thought_needed: True if you need more thinking, even if at what seemed like the end",
    "- thought_number: Current number in sequence (can go beyond initial total if needed)",
    "- total_thoughts: Current estimate of thoughts needed (can be adjusted up/down)",
    "- is_revision: A boolean indicating if this thought revises previous thinking",
    "- revises_thought: If is_revision is true, which thought number is being reconsidered",
    "- branch_from_thought: If branching, which thought number is the branching point",
    "- branch_id: Identifier for the current branch (if any)",
    "- needs_more_thoughts: If reaching end but realizing more thoughts needed",
    "",
    "You should:",
    "1. Start with an initial estimate of needed thoughts, but be ready to adjust",
    "2. Feel free to question or revise previous thoughts",
    "3. Don't hesitate to add more thoughts if needed, even at the \"end\"",
    "4. Express uncertainty when present",
    "5. Mark thoughts that revise previous thinking or branch into new paths",
    "6. Ignore information that is irrelevant to the current step",
    "7. Generate a solution hypothesis when appropriate",
    "8. Verify the hypothesis based on the Chain of Thought steps",
    "9. Repeat the process until satisfied with the solution",
    "10. Provide a single, ideally correct answer as the final output",
    "11. Only set next_thought_needed to false when truly done and a satisfactory answer is reached"]
}
