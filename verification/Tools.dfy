/** What becomes of each tool call of an assistant message. Tools and hooks are functions;
    their first argument, the slot of the call, stands for whatever else they consult. */
module Tools {
  import opened Messages

  datatype ExecutionMode = Sequential | Parallel

  /** `eager` of the updates are sent at once, before the tool waits for anything. */
  datatype Execution = Execution(updates: seq<ToolOutput>, eager: nat, outcome: Result<ToolOutput>)

  datatype Tool = Tool(
    name: string,
    mode: Option<ExecutionMode>,
    prepareArguments: Option<Json -> Result<Json>>,
    validate: Json -> Result<Json>,
    execute: (nat, string, Json) -> Execution)

  /** `beforeToolCall` may replace the validated arguments by mutating them. */
  datatype BeforeResult = Proceed(arguments: Json) | Block(reason: string)

  datatype AfterResult = AfterResult(
    content: Option<string>, details: Option<Json>, terminate: Option<bool>, isError: Option<bool>)

  type BeforeHook = (nat, AssistantMessage, ToolCall, Json, seq<Message>) -> Result<BeforeResult>

  type AfterHook =
    (nat, AssistantMessage, ToolCall, Json, ToolOutput, bool, seq<Message>) -> Result<Option<AfterResult>>

  datatype Toolbox = Toolbox(
    tools: seq<Tool>,
    mode: ExecutionMode,
    before: Option<BeforeHook>,
    after: Option<AfterHook>)

  datatype Preparation =
    | Prepared(tool: Tool, arguments: Json)
    | Immediate(output: ToolOutput)

  /** The tool calls of `message` about to be executed against the transcript `context`. */
  datatype Request = Request(box: Toolbox, context: seq<Message>, message: AssistantMessage) {
    function Calls(): seq<ToolCall> {
      ToolCalls(message.content)
    }
  }

  datatype Outcome = Outcome(output: ToolOutput, isError: bool)

  function ToolResultMessage(call: ToolCall, outcome: Outcome): Message {
    ToolResult(call.id, call.name, outcome.output.content, outcome.output.details, outcome.isError)
  }

  function FindTool(tools: seq<Tool>, name: string): Option<Tool> {
    if tools == [] then None
    else if tools[0].name == name then Some(tools[0])
    else FindTool(tools[1..], name)
  }

  function ErrorOutput(message: string): ToolOutput {
    ToolOutput(message, "{}", None)
  }

  function PrepareArguments(tool: Tool, call: ToolCall): Result<Json> {
    match tool.prepareArguments
    case None => Ok(call.arguments)
    case Some(prepare) => prepare(call.arguments)
  }

  function Prepare(r: Request, slot: nat): Preparation
    requires slot < |r.Calls()|
  {
    var call := r.Calls()[slot];
    match FindTool(r.box.tools, call.name)
    case None => Immediate(ErrorOutput("Tool " + call.name + " not found"))
    case Some(tool) =>
      match PrepareArguments(tool, call)
      case Threw(reason) => Immediate(ErrorOutput(reason))
      case Ok(prepared) =>
        match tool.validate(prepared)
        case Threw(reason) => Immediate(ErrorOutput(reason))
        case Ok(validated) =>
          if r.box.before.None? then Prepared(tool, validated)
          else
            match r.box.before.value(slot, r.message, call, validated, r.context)
            case Threw(reason) => Immediate(ErrorOutput(reason))
            case Ok(Block(reason)) =>
              Immediate(ErrorOutput(if reason != "" then reason else "Tool execution was blocked"))
            case Ok(Proceed(arguments)) => Prepared(tool, arguments)
  }

  /** Runs `afterToolCall` over an executed result; omitted fields keep their value. */
  function Finish(r: Request, slot: nat, arguments: Json, output: ToolOutput, isError: bool): Outcome
    requires slot < |r.Calls()|
  {
    if r.box.after.None? then Outcome(output, isError)
    else
      match r.box.after.value(slot, r.message, r.Calls()[slot], arguments, output, isError, r.context)
      case Threw(reason) => Outcome(ErrorOutput(reason), true)
      case Ok(None) => Outcome(output, isError)
      case Ok(Some(patch)) =>
        var terminate := if patch.terminate.Some? then patch.terminate else output.terminate;
        Outcome(ToolOutput(patch.content.GetOr(output.content), patch.details.GetOr(output.details), terminate),
                patch.isError.GetOr(isError))
  }

  /** What an execution resolves to before `afterToolCall` sees it. */
  function Resolve(execution: Execution): Outcome {
    match execution.outcome
    case Ok(output) => Outcome(output, false)
    case Threw(reason) => Outcome(ErrorOutput(reason), true)
  }

  /** Everything one call will do: whether its tool runs, the updates it streams while it
      runs, how many of them at once, and what it ends with. */
  datatype CallPlan = CallPlan(call: ToolCall, runs: bool, updates: seq<ToolOutput>, eager: nat, outcome: Outcome)

  /** How many of the updates are really sent at once. */
  function AtOnce(updates: seq<ToolOutput>, eager: nat): (n: nat)
    ensures n <= |updates|
  {
    if eager <= |updates| then eager else |updates|
  }

  function PlanCall(r: Request, slot: nat): CallPlan
    requires slot < |r.Calls()|
  {
    var call := r.Calls()[slot];
    match Prepare(r, slot)
    case Immediate(output) => CallPlan(call, false, [], 0, Outcome(output, true))
    case Prepared(tool, arguments) =>
      var execution := tool.execute(slot, call.id, arguments);
      var executed := Resolve(execution);
      CallPlan(call, true, execution.updates, execution.eager,
               Finish(r, slot, arguments, executed.output, executed.isError))
  }

  /** The plans of the first `n` calls. */
  function Plan(r: Request, n: nat): (plans: seq<CallPlan>)
    requires n <= |r.Calls()|
    ensures |plans| == n
    ensures forall i: nat {:trigger PlanCall(r, i)} | i < n :: plans[i] == PlanCall(r, i)
    ensures forall i | 0 <= i < n :: plans[i].call == r.Calls()[i]
  {
    if n == 0 then [] else Plan(r, n - 1) + [PlanCall(r, n - 1)]
  }

  /** One sequential tool forces the whole batch to run sequentially. */
  predicate RunsSequentially(r: Request) {
    || r.box.mode.Sequential?
    || exists i | 0 <= i < |r.Calls()| ::
         var tool := FindTool(r.box.tools, r.Calls()[i].name);
         tool.Some? && tool.value.mode == Some(Sequential)
  }
}
