/** The steps of one run of the agent loop, as a function of what the world answers. */
module LoopSpec {
  import opened Messages
  import opened Tools
  import opened ToolBatch

  datatype StreamEvent = Start(partial: AssistantMessage) | Delta(partial: AssistantMessage) | Terminal

  /** The stream of one LLM call and the message its `result()` resolves to. */
  datatype Response = Response(events: seq<StreamEvent>, final: AssistantMessage)

  /** Everything the outside world contributes to one turn and to the polls after it.
      `context` is the replacement context returned by `prepareNextTurn`, if any;
      `beforeSteering` and `beforeFollowUp` are what users do until the respective poll. */
  datatype TurnInput = TurnInput(
    response: Response,
    box: Toolbox,
    schedule: seq<nat>,
    context: Option<seq<Message>>,
    stop: bool,
    beforeSteering: seq<UserAction>,
    beforeFollowUp: seq<UserAction>)

  // ----- One streamed response

  /** The contract of a provider stream: the partial message is announced at most once. */
  function Starts(events: seq<StreamEvent>): nat {
    if events == [] || events[0].Terminal? then 0
    else (if events[0].Start? then 1 else 0) + Starts(events[1..])
  }

  function ReplaceLast(context: seq<Message>, m: Message): seq<Message>
    requires context != []
  {
    context[..|context| - 1] + [m]
  }

  /** `added` says whether the partial message is already at the end of the context. */
  function AfterStream(context: seq<Message>, added: bool, response: Response): seq<Message>
    requires added ==> context != []
    decreases |response.events|
  {
    var events := response.events;
    var final := Assistant(response.final);
    if events == [] || events[0].Terminal? then
      if added then ReplaceLast(context, final) else context + [final]
    else
      var rest := response.(events := events[1..]);
      match events[0]
      case Start(partial) => AfterStream(context + [Assistant(partial)], true, rest)
      case Delta(partial) =>
        if added then AfterStream(ReplaceLast(context, Assistant(partial)), true, rest)
        else AfterStream(context, false, rest)
  }

  function StreamSteps(context: seq<Message>, added: bool, response: Response): seq<Step>
    requires added ==> context != []
    decreases |response.events|
  {
    var events := response.events;
    var final := Assistant(response.final);
    if events == [] || events[0].Terminal? then
      if added then [Emit(MessageEnd(final), ReplaceLast(context, final))]
      else [Emit(MessageStart(final), context + [final]), Emit(MessageEnd(final), context + [final])]
    else
      var rest := response.(events := events[1..]);
      match events[0]
      case Start(partial) =>
        var grown := context + [Assistant(partial)];
        [Emit(MessageStart(Assistant(partial)), grown)] + StreamSteps(grown, true, rest)
      case Delta(partial) =>
        if added then
          var updated := ReplaceLast(context, Assistant(partial));
          [Emit(MessageUpdate(Assistant(partial)), updated)] + StreamSteps(updated, true, rest)
        else StreamSteps(context, false, rest)
  }

  // ----- One turn

  /** The loop's own variables: its context, `newMessages`, and the agent's queues. */
  datatype Loop = Loop(context: seq<Message>, newMessages: seq<Message>, queues: Queues)

  /** Messages announced one by one, each pushed onto the context after its events. */
  function InjectSteps(context: seq<Message>, messages: seq<Message>): seq<Step>
    decreases |messages|
  {
    if messages == [] then []
    else
      var m := messages[0];
      [Emit(MessageStart(m), context), Emit(MessageEnd(m), context)] + InjectSteps(context + [m], messages[1..])
  }

  predicate Failed(m: AssistantMessage) {
    m.stopReason.Error? || m.stopReason.Aborted?
  }

  function TurnBatch(asked: seq<Message>, t: TurnInput): Batch {
    PlanBatch(Request(t.box, AfterStream(asked, false, t.response), t.response.final))
  }

  function TurnResults(asked: seq<Message>, t: TurnInput): seq<Message> {
    if Failed(t.response.final) then [] else AllResults(TurnBatch(asked, t))
  }

  function ActSteps(asked: seq<Message>, t: TurnInput): seq<Step> {
    var b := TurnBatch(asked, t);
    if Failed(t.response.final) || b.plans == [] then [] else BatchSteps(b, t.schedule)
  }

  predicate Demands(asked: seq<Message>, t: TurnInput) {
    var b := TurnBatch(asked, t);
    b.plans != [] && !Terminates(b)
  }

  function AskSteps(context: seq<Message>, pending: seq<Message>, first: bool): seq<Step> {
    (if first then [] else [Emit(TurnStart, context)]) + InjectSteps(context, pending)
  }

  function AnswerSteps(asked: seq<Message>, t: TurnInput): seq<Step> {
    [CallLlm(asked)] + StreamSteps(asked, false, t.response)
  }

  function AfterTurn(ls: Loop, pending: seq<Message>, t: TurnInput): Loop {
    var asked := ls.context + pending;
    var results := TurnResults(asked, t);
    ls.(context := AfterStream(asked, false, t.response) + results,
        newMessages := ls.newMessages + pending + [Assistant(t.response.final)] + results)
  }

  function TurnEndStep(ls: Loop, pending: seq<Message>, t: TurnInput): Step {
    var results := TurnResults(ls.context + pending, t);
    Emit(TurnEnd(Assistant(t.response.final), results), AfterTurn(ls, pending, t).context)
  }

  function TurnSteps(ls: Loop, pending: seq<Message>, first: bool, t: TurnInput): seq<Step> {
    var asked := ls.context + pending;
    AskSteps(ls.context, pending, first) + AnswerSteps(asked, t) + ActSteps(asked, t) + [TurnEndStep(ls, pending, t)]
  }

  // ----- Polls

  function ActionSteps(actions: seq<UserAction>): seq<Step> {
    if actions == [] then []
    else [UserDoes(actions[0])] + ActionSteps(actions[1..])
  }

  function PollSteps(queues: Queues, name: QueueName, actions: seq<UserAction>): seq<Step> {
    ActionSteps(actions) + [Poll(name, Drained(ActAll(queues, actions).Get(name)))]
  }

  function PolledMessages(queues: Queues, name: QueueName, actions: seq<UserAction>): seq<Message> {
    Drained(ActAll(queues, actions).Get(name))
  }

  function AfterPoll(queues: Queues, name: QueueName, actions: seq<UserAction>): Queues {
    var acted := ActAll(queues, actions);
    acted.Put(name, Undrained(acted.Get(name)))
  }

  // ----- The nested loops

  /** `finished` is false when the script ends before the run does. */
  datatype Run = Run(steps: seq<Step>, end: Loop, finished: bool) {
    function After(steps: seq<Step>): Run {
      this.(steps := steps + this.steps)
    }
  }

  function Close(ls: Loop): Run {
    Run([Emit(AgentEnd(ls.newMessages), ls.context)], ls, true)
  }

  /** The state the loop is in once `prepareNextTurn` has answered. */
  function AfterPrepare(ls: Loop, t: TurnInput): Loop {
    if t.context.Some? then ls.(context := t.context.value) else ls
  }

  function HookSteps(ls: Loop, t: TurnInput, more: bool): seq<Step> {
    [TurnDone(ls.context, ls.newMessages, more)] +
    (if t.context.Some? then [Override(t.context.value)] else []) +
    [Decide(t.stop)]
  }

  function AfterSteering(ls: Loop, t: TurnInput): Loop {
    ls.(queues := AfterPoll(ls.queues, Steering, t.beforeSteering))
  }

  function AfterFollowUp(ls: Loop, t: TurnInput): Loop {
    ls.(queues := AfterPoll(ls.queues, FollowUp, t.beforeFollowUp))
  }

  /** From the head of the inner loop, with `pending` to inject. */
  function RunFrom(ls: Loop, pending: seq<Message>, first: bool, script: seq<TurnInput>): Run
    decreases |script|
  {
    if script == [] then Run([], ls, false)
    else
      var t := script[0];
      AfterResponse(ls, pending, t, script[1..]).After(TurnSteps(ls, pending, first, t))
  }

  /** From the `turn_end` of a turn. */
  function AfterResponse(ls: Loop, pending: seq<Message>, t: TurnInput, script: seq<TurnInput>): Run
    decreases |script| + 1, 2
  {
    var end := AfterTurn(ls, pending, t);
    if Failed(t.response.final) then Close(end)
    else
      var more := Demands(ls.context + pending, t);
      var hooked := AfterPrepare(end, t);
      (if t.stop then Close(hooked) else AfterStop(hooked, more, t, script)).After(HookSteps(end, t, more))
  }

  /** From the steering poll that closes an iteration of the inner loop. */
  function AfterStop(ls: Loop, more: bool, t: TurnInput, script: seq<TurnInput>): Run
    decreases |script| + 1, 1
  {
    var steered := PolledMessages(ls.queues, Steering, t.beforeSteering);
    var next := AfterSteering(ls, t);
    (if more || steered != [] then RunFrom(next, steered, false, script) else WouldStop(next, t, script))
    .After(PollSteps(ls.queues, Steering, t.beforeSteering))
  }

  /** From the follow-up poll of the outer loop. */
  function WouldStop(ls: Loop, t: TurnInput, script: seq<TurnInput>): Run
    decreases |script| + 1, 0
  {
    var followed := PolledMessages(ls.queues, FollowUp, t.beforeFollowUp);
    var next := AfterFollowUp(ls, t);
    (if followed != [] then RunFrom(next, followed, false, script) else Close(next))
    .After(PollSteps(ls.queues, FollowUp, t.beforeFollowUp))
  }

  // ----- Whole runs

  function PromptSteps(context: seq<Message>, prompts: seq<Message>): seq<Step> {
    if prompts == [] then []
    else
      var m := prompts[0];
      [Emit(MessageStart(m), context), Emit(MessageEnd(m), context)] + PromptSteps(context, prompts[1..])
  }

  /** The steering poll before the first turn; `skip` answers it without touching the queue. */
  function FirstPoll(queues: Queues, skip: bool, actions: seq<UserAction>): (seq<Step>, seq<Message>, Queues) {
    if skip then (ActionSteps(actions) + [Poll(Steering, [])], [], ActAll(queues, actions))
    else (PollSteps(queues, Steering, actions), PolledMessages(queues, Steering, actions),
          AfterPoll(queues, Steering, actions))
  }

  /** Everything that decides a run besides the transcript it starts from. */
  datatype RunInput = RunInput(
    prompts: seq<Message>,
    skipFirstPoll: bool,
    beforeStart: seq<UserAction>,
    script: seq<TurnInput>)

  function WholeRun(transcript: seq<Message>, queues: Queues, input: RunInput): Run {
    var context := transcript + input.prompts;
    var (polls, pending, polled) := FirstPoll(queues, input.skipFirstPoll, input.beforeStart);
    RunFrom(Loop(context, input.prompts, polled), pending, true, input.script)
    .After([Emit(AgentStart, context), Emit(TurnStart, context)] + PromptSteps(context, input.prompts) + polls)
  }
}
