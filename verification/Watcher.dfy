/** An observer of a run. It sees only the steps, keeps its own copy of the agent state,
    and knows the rules a run must keep. It shares no definition with the loop. */
module Watching {
  import opened Messages
  import opened Reducer

  datatype Phase =
    | Before
    | Between
    | Asking
    | AskBracket(message: Message)
    | Answering
    | Streaming
    | Acting
    | ResultBracket(message: Message)
    | Over

  /** The tool batch of the open turn. `open` maps each call that is started and not yet
      ended to its id; `ended` holds the result message every ended call owes. `clash`
      says that two calls with one id were open together. */
  datatype ToolWatch = ToolWatch(
    calls: seq<ToolCall>,
    starts: nat,
    open: map<nat, string>,
    executing: set<nat>,
    ended: map<nat, Message>,
    results: nat,
    clash: bool)

  datatype QueueWatch = QueueWatch(
    turns: nat,
    demands: nat,
    injected: seq<Message>,
    polled: seq<Message>,
    quiet: bool,
    dry: bool,
    demand: bool,
    stopped: bool)

  /** `view` is the context the model should be shown; `demanded` says that a tool call has
      ended since the latest LLM call without asking to terminate. */
  datatype Watcher = Watcher(
    initial: seq<Message>,
    prompts: seq<Message>,
    agent: AgentState,
    phase: Phase,
    tools: ToolWatch,
    queue: QueueWatch,
    failed: bool,
    view: seq<Message>,
    demanded: bool)

  const NO_TOOLS := ToolWatch([], 0, map[], {}, map[], 0, false)

  function NewWatcher(agent: AgentState, prompts: seq<Message>): Watcher {
    Watcher(agent.messages, prompts, agent, Before, NO_TOOLS, QueueWatch(0, 0, [], [], false, false, false, false),
            false, agent.messages, false)
  }

  // ----- Rules

  /** The grammar of a run, one step at a time; None when the step is out of place. */
  function NextPhase(phase: Phase, step: Step): Option<Phase> {
    match step
    case Emit(AgentStart, _) => if phase.Before? then Some(Between) else None
    case Emit(AgentEnd(_), _) => if phase.Between? then Some(Over) else None
    case Emit(TurnStart, _) => if phase.Between? then Some(Asking) else None
    case Emit(TurnEnd(_, _), _) => if phase.Acting? then Some(Between) else None
    case Emit(MessageStart(m), _) =>
      if phase.Asking? then Some(AskBracket(m))
      else if phase.Answering? && m.Assistant? then Some(Streaming)
      else if phase.Acting? then Some(ResultBracket(m))
      else None
    case Emit(MessageUpdate(m), _) => if phase.Streaming? && m.Assistant? then Some(Streaming) else None
    case Emit(MessageEnd(m), _) =>
      if phase == AskBracket(m) then Some(Asking)
      else if phase.Streaming? && m.Assistant? then Some(Acting)
      else if phase == ResultBracket(m) then Some(Acting)
      else None
    case Emit(ToolStart(_, _), _) => if phase.Acting? then Some(Acting) else None
    case Emit(ToolUpdate(_, _, _), _) => if phase.Acting? then Some(Acting) else None
    case Emit(ToolEnd(_, _, _, _), _) => if phase.Acting? then Some(Acting) else None
    case CallLlm(_) => if phase.Asking? then Some(Answering) else None
    case Execute(_, _) => if phase.Acting? then Some(Acting) else None
    case TurnDone(_, _, _) => if phase.Between? then Some(Between) else None
    case Override(_) => if phase.Between? then Some(Between) else None
    case Decide(_) => if phase.Between? then Some(Between) else None
    case UserDoes(_) => if phase.Before? || phase.Over? then None else Some(phase)
    case Poll(name, _) =>
      if phase.Between? || (phase.Asking? && name.Steering?) then Some(phase) else None
  }

  predicate Failing(m: Message) {
    m.Assistant? && (m.body.stopReason.Error? || m.body.stopReason.Aborted?)
  }

  /** Calls start once each, in source order; each ends once, after its start and its
      execution; the results follow in source order when nothing is left open. */
  predicate ToolRule(w: Watcher, step: Step) {
    var t := w.tools;
    match step
    case Emit(ToolStart(slot, call), _) =>
      && !w.failed
      && slot == t.starts < |t.calls|
      && call == t.calls[slot]
    case Execute(slot, call) =>
      && slot in t.open
      && slot !in t.executing
      && slot < |t.calls|
      && call == t.calls[slot]
    case Emit(ToolUpdate(slot, call, _), _) =>
      && slot in t.executing
      && slot < |t.calls|
      && call == t.calls[slot]
    case Emit(ToolEnd(slot, call, _, _), _) =>
      && slot in t.open
      && slot < |t.calls|
      && call == t.calls[slot]
    case Emit(MessageStart(m), _) =>
      w.phase.Acting? ==>
        && t.open == map[]
        && t.results in t.ended
        && m == t.ended[t.results]
    case Emit(TurnEnd(m, _), _) =>
      && t.open == map[]
      && (w.failed <==> Failing(m))
      && t.starts == t.results == if w.failed then 0 else |t.calls|
    case _ => true
  }

  predicate EndsWith(messages: seq<Message>, end: seq<Message>) {
    |end| <= |messages| && messages[|messages| - |end|..] == end
  }

  /** How the loop's context and its `newMessages` relate to what was shown and committed. */
  predicate ContextRule(w: Watcher, step: Step) {
    var transcript := w.agent.messages;
    match step
    case CallLlm(context) => context == w.view
    case Emit(MessageStart(m), context) => w.phase.Answering? ==> context == w.view + [m]
    case Emit(MessageUpdate(m), context) => context == w.view + [m]
    case Emit(MessageEnd(m), context) => w.phase.Streaming? ==> context == w.view + [m]
    case Emit(TurnEnd(m, results), context) =>
      && context == w.view
      && |results| == w.tools.results
      && EndsWith(transcript, [m] + results)
      && EndsWith(context, [m] + results)
    case TurnDone(context, newMessages, _) =>
      && context == w.view
      && transcript == w.initial + newMessages
    case Emit(AgentEnd(newMessages), _) => transcript == w.initial + newMessages
    case _ => true
  }

  /** All the messages the run was given so far: its prompts, then what it polled. */
  function Given(w: Watcher): seq<Message> {
    w.prompts + w.queue.polled
  }

  /** A further turn only for a reason, a poll only while the run goes on, a follow-up poll
      only when it would stop, an end only when it must; everything given is injected, in
      order and before the next poll. */
  predicate QueueRule(w: Watcher, step: Step) {
    var q := w.queue;
    match step
    case Emit(TurnStart, _) =>
      && !w.failed && !q.stopped
      && (q.turns > 0 ==> q.demand || q.injected != Given(w))
      && q.turns <= q.demands + |q.polled|
    case Poll(name, _) =>
      && !w.failed && !q.stopped
      && q.injected == Given(w)
      && (name.FollowUp? ==> q.quiet && !q.demand)
    case Emit(MessageStart(m), _) =>
      w.phase.Asking? ==> |q.injected| < |Given(w)| && Given(w)[|q.injected|] == m
    case CallLlm(_) => q.injected == Given(w)
    case TurnDone(_, _, more) => more == w.demanded
    case Emit(AgentEnd(_), _) =>
      && q.turns > 0 && q.injected == Given(w)
      && (w.failed || q.stopped || (q.quiet && q.dry && !q.demand))
    case _ => true
  }

  predicate Acceptable(w: Watcher, step: Step) {
    && NextPhase(w.phase, step).Some?
    && ToolRule(w, step)
    && ContextRule(w, step)
    && QueueRule(w, step)
  }

  // ----- Bookkeeping

  function WatchTools(w: Watcher, step: Step): ToolWatch {
    var t := w.tools;
    match step
    case Emit(ToolStart(slot, call), _) =>
      t.(starts := t.starts + 1, open := t.open[slot := call.id], clash := t.clash || call.id in t.open.Values)
    case Execute(slot, _) => t.(executing := t.executing + {slot})
    case Emit(ToolEnd(slot, call, output, isError), _) =>
      t.(open := t.open - {slot}, executing := t.executing - {slot},
         ended := t.ended[slot := ToolResult(call.id, call.name, output.content, output.details, isError)])
    case Emit(MessageEnd(m), _) =>
      if w.phase.Streaming? && m.Assistant? then NO_TOOLS.(calls := ToolCalls(m.body.content))
      else if w.phase.ResultBracket? then t.(results := t.results + 1)
      else t
    case Emit(TurnEnd(_, _), _) => NO_TOOLS
    case _ => t
  }

  function WatchQueue(w: Watcher, step: Step): QueueWatch {
    var q := w.queue;
    match step
    case Emit(TurnStart, _) => q.(turns := q.turns + 1)
    case Emit(MessageEnd(m), _) => if w.phase.AskBracket? then q.(injected := q.injected + [m]) else q
    case TurnDone(_, _, more) =>
      q.(demand := more, demands := q.demands + (if more then 1 else 0), quiet := false, dry := false)
    case Decide(stop) => q.(stopped := stop)
    case Poll(name, drained) =>
      q.(polled := q.polled + drained,
         quiet := if name.Steering? then drained == [] else q.quiet,
         dry := name.FollowUp? && drained == [])
    case _ => q
  }

  /** A call ends without asking to terminate. */
  predicate AsksOn(step: Step) {
    step.Emit? && step.event.ToolEnd? && step.event.output.terminate != Some(true)
  }

  function Observe(w: Watcher, step: Step): Watcher {
    var streamed := step.Emit? && step.event.MessageEnd? && w.phase.Streaming?;
    w.(agent := ReduceStep(w.agent, step),
       phase := NextPhase(w.phase, step).GetOr(w.phase),
       tools := WatchTools(w, step),
       queue := WatchQueue(w, step),
       failed := if streamed then Failing(step.event.message) else w.failed,
       view := NextContext(w.view, step),
       demanded := if step.CallLlm? then false else w.demanded || AsksOn(step))
  }

  function Watch(w: Watcher, steps: seq<Step>): Watcher
    decreases |steps|
  {
    if steps == [] then w else Watch(Observe(w, steps[0]), steps[1..])
  }

  /** No step of the run breaks a rule. */
  predicate Safe(w: Watcher, steps: seq<Step>)
    decreases |steps|
  {
    steps == [] || (Acceptable(w, steps[0]) && Safe(Observe(w, steps[0]), steps[1..]))
  }

  /** `steps` is safe from `w` and takes the observer to `w'`. */
  predicate Leads(w: Watcher, steps: seq<Step>, w': Watcher) {
    Safe(w, steps) && Watch(w, steps) == w'
  }

  lemma {:induction false} WatchAppend(w: Watcher, a: seq<Step>, b: seq<Step>)
    ensures Watch(w, a + b) == Watch(Watch(w, a), b)
    ensures Safe(w, a + b) <==> Safe(w, a) && Safe(Watch(w, a), b)
    decreases |a|
  {
    if a == [] {
      assert a + b == b;
    } else {
      assert (a + b)[1..] == a[1..] + b;
      WatchAppend(Observe(w, a[0]), a[1..], b);
    }
  }

  lemma OneStep(w: Watcher, step: Step)
    ensures Watch(w, [step]) == Observe(w, step)
    ensures Safe(w, [step]) <==> Acceptable(w, step)
  {
    assert [step][1..] == [];
  }

  lemma LeadsAppend(w: Watcher, a: seq<Step>, w': Watcher, b: seq<Step>, w'': Watcher)
    requires Leads(w, a, w') && Leads(w', b, w'')
    ensures Leads(w, a + b, w'')
  {
    WatchAppend(w, a, b);
  }

  /** The observer's copy of the agent state is the agent's own fold over the same steps, and
      its view of the context is a fold over them as well. */
  lemma {:induction false} WatcherReplays(w: Watcher, steps: seq<Step>)
    ensures Watch(w, steps).agent == Replay(w.agent, steps)
    ensures Watch(w, steps).view == ContextAfter(w.view, steps)
  {
    if steps != [] {
      var init := steps[..|steps| - 1];
      assert steps == init + [steps[|steps| - 1]];
      WatcherReplays(w, init);
      WatchAppend(w, init, [steps[|steps| - 1]]);
      OneStep(Watch(w, init), steps[|steps| - 1]);
      hide Watch, WatchTools, WatchQueue, NextPhase, NextContext, ReduceStep;
    }
  }
}
