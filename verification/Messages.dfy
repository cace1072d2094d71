/** Messages, tool calls, events and queues of the agent runtime, as plain values. */
module Messages {

  datatype Option<+T> = None | Some(value: T) {
    function GetOr(default: T): T {
      if Some? then value else default
    }
  }

  /** What a callback supplied by the embedding application comes back with. */
  datatype Result<+T> = Ok(value: T) | Threw(reason: string)

  /** A JSON value. The runtime only passes these along, so their structure is not modelled. */
  type Json = string

  datatype StopReason = Stop | Length | ToolUse | Error | Aborted

  datatype ToolCall = ToolCall(id: string, name: string, arguments: Json)

  datatype Block = Text(text: string) | Thinking(thinking: string) | Call(call: ToolCall)

  datatype AssistantMessage = AssistantMessage(content: seq<Block>, stopReason: StopReason,
                                               errorMessage: Option<string>)

  /** `Custom` stands for the message kinds an application may declare for itself. */
  datatype Message =
    | User(text: string)
    | Custom(role: string, payload: Json)
    | Assistant(body: AssistantMessage)
    | ToolResult(callId: string, toolName: string, content: string, details: Json, isError: bool)

  /** The tool-call blocks of an assistant message, in source order. */
  function ToolCalls(content: seq<Block>): seq<ToolCall> {
    if content == [] then []
    else (if content[0].Call? then [content[0].call] else []) + ToolCalls(content[1..])
  }

  datatype ToolOutput = ToolOutput(content: string, details: Json, terminate: Option<bool>)

  /** Lifecycle events. `slot` is the position of a call among the tool calls of its
      assistant message; the source identifies a call by `call.id`, which may repeat. */
  datatype Event =
    | AgentStart
    | AgentEnd(messages: seq<Message>)
    | TurnStart
    | TurnEnd(message: Message, toolResults: seq<Message>)
    | MessageStart(message: Message)
    | MessageUpdate(message: Message)
    | MessageEnd(message: Message)
    | ToolStart(slot: nat, call: ToolCall)
    | ToolUpdate(slot: nat, call: ToolCall, partial: ToolOutput)
    | ToolEnd(slot: nat, call: ToolCall, output: ToolOutput, isError: bool)

  datatype QueueMode = All | OneAtATime

  datatype QueueName = Steering | FollowUp

  datatype QueueState = QueueState(mode: QueueMode, items: seq<Message>)

  datatype Queues = Queues(steering: QueueState, followUp: QueueState) {
    function Get(name: QueueName): QueueState {
      if name.Steering? then steering else followUp
    }

    function Put(name: QueueName, queue: QueueState): Queues {
      if name.Steering? then this.(steering := queue) else this.(followUp := queue)
    }
  }

  /** What the application may do to a busy agent between two steps of its run. */
  datatype UserAction =
    | Enqueue(queue: QueueName, message: Message)
    | SetMode(queue: QueueName, mode: QueueMode)
    | Clear(queue: QueueName)
    | Abort

  function Drained(queue: QueueState): seq<Message> {
    if queue.mode.All? || queue.items == [] then queue.items else queue.items[..1]
  }

  function Undrained(queue: QueueState): QueueState {
    queue.(items := queue.items[|Drained(queue)|..])
  }

  function Act(queues: Queues, action: UserAction): Queues {
    match action
    case Enqueue(name, m) => queues.Put(name, queues.Get(name).(items := queues.Get(name).items + [m]))
    case SetMode(name, mode) => queues.Put(name, queues.Get(name).(mode := mode))
    case Clear(name) => queues.Put(name, queues.Get(name).(items := []))
    case Abort => queues
  }

  function ActAll(queues: Queues, actions: seq<UserAction>): Queues
    decreases |actions|
  {
    if actions == [] then queues
    else ActAll(Act(queues, actions[0]), actions[1..])
  }

  /** One observable step of a run. `context` is the loop's own transcript at that moment.
      `TurnDone` and `Override` are the call of `prepareNextTurn` and its answer, `Decide`
      is the answer of `shouldStopAfterTurn`. */
  datatype Step =
    | Emit(event: Event, context: seq<Message>)
    | CallLlm(context: seq<Message>)
    | Execute(slot: nat, call: ToolCall)
    | TurnDone(context: seq<Message>, newMessages: seq<Message>, more: bool)
    | Override(context: seq<Message>)
    | Decide(stop: bool)
    | UserDoes(action: UserAction)
    | Poll(queue: QueueName, drained: seq<Message>)
}

/** How an agent folds loop events into its public state (`processEvents`). */
module Reducer {
  import opened Messages

  datatype AgentState = AgentState(
    messages: seq<Message>,
    isStreaming: bool,
    streaming: Option<Message>,
    pending: set<string>,
    errorMessage: Option<string>)

  function Reduce(state: AgentState, event: Event): AgentState {
    match event
    case MessageStart(m) => state.(streaming := Some(m))
    case MessageUpdate(m) => state.(streaming := Some(m))
    case MessageEnd(m) => state.(streaming := None, messages := state.messages + [m])
    case ToolStart(_, call) => state.(pending := state.pending + {call.id})
    case ToolEnd(_, call, _, _) => state.(pending := state.pending - {call.id})
    case TurnEnd(m, _) =>
      if m.Assistant? && m.body.errorMessage.GetOr("") != "" then state.(errorMessage := m.body.errorMessage) else state
    case AgentEnd(_) => state.(streaming := None)
    case AgentStart => state
    case TurnStart => state
    case ToolUpdate(_, _, _) => state
  }

  /** The state a run starts in. */
  function Begun(state: AgentState): AgentState {
    state.(isStreaming := true, streaming := None, errorMessage := None)
  }

  /** The state a run leaves, however it ends. */
  function Finished(state: AgentState): AgentState {
    state.(isStreaming := false, streaming := None, pending := {})
  }

  function Blank(): AgentState {
    AgentState([], false, None, {}, None)
  }

  /** How a failed run is reported. */
  function FailureMessage(aborted: bool, reason: string): Message {
    Assistant(AssistantMessage([Text("")], if aborted then StopReason.Aborted else StopReason.Error, Some(reason)))
  }

  function FailureEvents(failure: Message): seq<Event> {
    [MessageStart(failure), MessageEnd(failure), TurnEnd(failure, []), AgentEnd([failure])]
  }

  function ReduceAll(state: AgentState, events: seq<Event>): AgentState
    decreases |events|
  {
    if events == [] then state else ReduceAll(Reduce(state, events[0]), events[1..])
  }

  lemma ReduceNone(state: AgentState, events: seq<Event>)
    ensures ReduceAll(state, events[..0]) == state
  {
  }

  lemma {:induction false} ReduceNext(state: AgentState, events: seq<Event>, n: nat)
    requires n < |events|
    ensures ReduceAll(state, events[..n + 1]) == Reduce(ReduceAll(state, events[..n]), events[n])
    decreases n
  {
    hide Reduce;
    if n == 0 {
      assert events[..1] == [events[0]] + [];
      assert events[..1][1..] == [] && events[..0] == [];
    } else {
      ReduceNext(Reduce(state, events[0]), events[1..], n - 1);
      assert events[..n + 1][1..] == events[1..][..n] && events[..n][1..] == events[1..][..n - 1];
    }
  }

  function ReduceStep(state: AgentState, step: Step): AgentState {
    if step.Emit? then Reduce(state, step.event) else state
  }

  /** The agent state after a whole sequence of steps. */
  function Replay(state: AgentState, steps: seq<Step>): AgentState {
    if steps == [] then state
    else ReduceStep(Replay(state, steps[..|steps| - 1]), steps[|steps| - 1])
  }

  /** What one step does to the queues: users act on them, and a poll takes from one. */
  function NextQueues(queues: Queues, step: Step): Queues {
    match step
    case UserDoes(action) => Act(queues, action)
    case Poll(name, drained) =>
      var queue := queues.Get(name);
      if |drained| <= |queue.items| then queues.Put(name, queue.(items := queue.items[|drained|..])) else queues
    case _ => queues
  }

  /** The queues after a whole sequence of steps. */
  function QueuesAfter(queues: Queues, steps: seq<Step>): Queues {
    if steps == [] then queues else NextQueues(QueuesAfter(queues, steps[..|steps| - 1]), steps[|steps| - 1])
  }

  /** The messages a sequence of steps commits to the transcript. */
  function Committed(steps: seq<Step>): seq<Message> {
    if steps == [] then []
    else
      var last := steps[|steps| - 1];
      Committed(steps[..|steps| - 1]) +
      (if last.Emit? && last.event.MessageEnd? then [last.event.message] else [])
  }

  /** The context the model is to see next: what it was shown, or what replaced that, and
      every message committed since. */
  function NextContext(context: seq<Message>, step: Step): seq<Message> {
    match step
    case Override(replacement) => replacement
    case Emit(MessageEnd(m), _) => context + [m]
    case _ => context
  }

  /** That context after a whole sequence of steps. */
  function ContextAfter(context: seq<Message>, steps: seq<Step>): seq<Message> {
    if steps == [] then context
    else NextContext(ContextAfter(context, steps[..|steps| - 1]), steps[|steps| - 1])
  }

  ghost predicate NoOverride(steps: seq<Step>) {
    forall i | 0 <= i < |steps| :: !steps[i].Override?
  }

  /** Without a replacement the context grows by what is committed. */
  lemma {:induction false} ContextGrows(context: seq<Message>, a: seq<Step>, b: seq<Step>)
    requires NoOverride(b)
    ensures ContextAfter(context, a + b) == ContextAfter(context, a) + Committed(b)
  {
    if b == [] {
      assert a + b == a;
    } else {
      assert (a + b)[..|a + b| - 1] == a + b[..|b| - 1];
      ContextGrows(context, a, b[..|b| - 1]);
    }
  }

  lemma {:induction false} CommittedAppend(a: seq<Step>, b: seq<Step>)
    ensures Committed(a + b) == Committed(a) + Committed(b)
  {
    if b == [] {
      assert a + b == a;
    } else {
      assert (a + b)[..|a + b| - 1] == a + b[..|b| - 1];
      CommittedAppend(a, b[..|b| - 1]);
    }
  }

  /** The transcript is append-only during a run: it is the transcript the run started
      from, then the committed messages in order. */
  lemma {:induction false} ReplayTranscript(state: AgentState, steps: seq<Step>)
    ensures Replay(state, steps).messages == state.messages + Committed(steps)
    ensures Replay(state, steps).isStreaming == state.isStreaming
  {
    if steps != [] {
      ReplayTranscript(state, steps[..|steps| - 1]);
    }
  }

  /** Stopping early commits a prefix of what the uncut sequence of steps commits. */
  lemma {:induction false} CutCommitsPrefix(cut: seq<Step>, steps: seq<Step>)
    requires cut <= steps
    ensures Committed(cut) <= Committed(steps)
  {
    assert steps == cut + steps[|cut|..];
    CommittedAppend(cut, steps[|cut|..]);
  }
}
