/** The agent loop itself: nested loops over one mutable context, reporting to an agent. */
module AgentLoop {
  import opened Messages
  import opened Reducer
  import opened Tools
  import opened ToolBatch
  import opened LoopSpec
  import opened AgentCore

  /** What preparing a call leaves: a call still to be launched, or what it ended with. */
  datatype Entry =
    | Deferred(tool: Tool, arguments: Json)
    | Finalized(outcome: Outcome)

  ghost predicate EntrySound(r: Request, b: Batch, slot: nat, entry: Entry)
    requires slot < |r.Calls()| == |b.plans|
  {
    match entry
    case Deferred(tool, arguments) =>
      b.plans[slot] == PlanCall(r, slot) && Prepare(r, slot) == Prepared(tool, arguments)
    case Finalized(outcome) => !b.plans[slot].runs && outcome == b.plans[slot].outcome
  }

  /** A launched call: running with some updates sent, or ended. */
  datatype TaskState =
    | Running(arguments: Json, execution: Execution, sent: nat)
    | Ended(outcome: Outcome)

  ghost predicate TaskSound(r: Request, b: Batch, slot: nat, state: TaskState)
    requires slot < |r.Calls()| == |b.plans|
  {
    match state
    case Running(arguments, execution, sent) =>
      && b.plans[slot].runs
      && sent <= |execution.updates|
      && b.plans[slot].updates == execution.updates
      && b.plans[slot].outcome ==
         Finish(r, slot, arguments, Resolve(execution).output, Resolve(execution).isError)
    case Ended(outcome) => outcome == b.plans[slot].outcome
  }

  /** What a call in this state has yet to do. */
  ghost function Remaining(b: Batch, slot: nat, state: TaskState): seq<Step>
    requires slot < |b.plans|
  {
    if state.Ended? || !b.plans[slot].runs then []
    else if 1 + state.sent <= |TaskSteps(b, slot)| then TaskSteps(b, slot)[1 + state.sent..]
    else []
  }

  /** The state of one call agrees with what is left of its task. */
  ghost predicate Follows(r: Request, b: Batch, slot: nat, state: TaskState, task: seq<Step>)
    requires slot < |r.Calls()| == |b.plans|
  {
    TaskSound(r, b, slot, state) && task == Remaining(b, slot, state) && (task == [] <==> state.Ended?)
  }

  ghost predicate InStep(r: Request, b: Batch, states: seq<TaskState>, tasks: seq<seq<Step>>)
    requires |r.Calls()| == |b.plans|
  {
    && |states| == |tasks| == |b.plans|
    && forall i: nat {:trigger Follows(r, b, i, states[i], tasks[i])} | i < |states| ::
      Follows(r, b, i, states[i], tasks[i])
  }

  predicate AllEnded(states: seq<TaskState>) {
    forall i | 0 <= i < |states| :: states[i].Ended?
  }

  function FirstLive(states: seq<TaskState>, from: nat): (slot: nat)
    requires from < |states| && exists i :: from <= i < |states| && !states[i].Ended?
    ensures slot < |states| && !states[slot].Ended?
    decreases |states| - from
  {
    if !states[from].Ended? then from else FirstLive(states, from + 1)
  }

  /** The next call the event loop resumes. */
  function NextTask(states: seq<TaskState>, schedule: seq<nat>): (slot: nat)
    requires !AllEnded(states)
    ensures slot < |states| && !states[slot].Ended?
  {
    if schedule != [] && schedule[0] < |states| && !states[schedule[0]].Ended? then schedule[0]
    else FirstLive(states, 0)
  }

  lemma {:induction false} FirstLiveIsFirstBusy(states: seq<TaskState>, tasks: seq<seq<Step>>, from: nat)
    requires |states| == |tasks| && forall i | 0 <= i < |states| :: tasks[i] == [] <==> states[i].Ended?
    requires from < |states| && exists i :: from <= i < |states| && !states[i].Ended?
    ensures exists i :: from <= i < |tasks| && tasks[i] != []
    ensures FirstLive(states, from) == FirstBusy(tasks, from)
    decreases |states| - from
  {
    if states[from].Ended? {
      FirstLiveIsFirstBusy(states, tasks, from + 1);
    }
  }

  /** What happens between the start and the end event of a call. */
  ghost function WorkSteps(b: Batch, slot: nat): seq<Step>
    requires slot < |b.plans|
  {
    if b.plans[slot].runs then [Execute(slot, b.plans[slot].call)] + UpdateSteps(b, slot) else []
  }

  lemma BlockParts(b: Batch, slot: nat, rest: seq<Step>)
    requires slot < |b.plans|
    ensures SequentialBlock(b, slot) + rest ==
      [StartStep(b, slot)] + (WorkSteps(b, slot) + ([EndStep(b, slot)] + (ResultSteps(b, slot) + rest)))
  {
    hide StartStep, EndStep, ResultSteps, UpdateSteps;
    assert b.plans[slot].runs ==> TaskSteps(b, slot) == WorkSteps(b, slot) + [EndStep(b, slot)];
  }

  /** Whether the steps include a call to `abort()`. */
  predicate Aborts(steps: seq<Step>) {
    steps != [] && (Aborts(steps[..|steps| - 1]) || steps[|steps| - 1] == UserDoes(Abort))
  }

  datatype ExecutedBatch = ExecutedBatch(messages: seq<Message>, terminate: bool)

  ghost predicate Executed(b: Batch, batch: ExecutedBatch) {
    batch.messages == AllResults(b) && (batch.terminate <==> Terminates(b))
  }

  /** What is left of one response once its first `i` events are consumed. */
  ghost function Rest(response: Response, i: nat): Response
    requires i <= |response.events|
  {
    response.(events := response.events[i..])
  }

  /** The blocks from the `from`-th on: what is left of `Flatten` after `from` blocks. */
  ghost function FlattenFrom(blocks: seq<seq<Step>>, from: nat): seq<Step>
    requires from <= |blocks|
    decreases |blocks| - from
  {
    if from == |blocks| then [] else blocks[from] + FlattenFrom(blocks, from + 1)
  }

  lemma {:induction false} FlattenSplits(blocks: seq<seq<Step>>, at: nat)
    requires at <= |blocks|
    ensures Flatten(blocks, at) + FlattenFrom(blocks, at) == Flatten(blocks, |blocks|)
    decreases |blocks| - at
  {
    if at < |blocks| {
      FlattenSplits(blocks, at + 1);
    }
  }

  lemma FlattenWhole(blocks: seq<seq<Step>>)
    ensures FlattenFrom(blocks, 0) == Flatten(blocks, |blocks|)
  {
    FlattenSplits(blocks, 0);
    assert Flatten(blocks, 0) == [];
  }

  /** One invocation of the loop. `plan` is the sequence of steps the run is specified to
      take, `trace` what it has taken and `todo` what is left of the plan. `patience` is the
      number of steps until the world throws: a listener, a hook, the conversion for the
      model, or the stream itself. Every method says what it performs in the form
      `requires todo == steps + rest` and `ensures ok ==> todo == rest`. */
  class LoopRun {
    const agent: Agent
    var context: seq<Message>
    var newMessages: seq<Message>
    var patience: nat
    ghost const origin: AgentState
    ghost const queuesBefore: Queues
    ghost const plan: seq<Step>
    ghost const budget: nat
    ghost var trace: seq<Step>
    ghost var todo: seq<Step>

    constructor (agent: Agent, context: seq<Message>, patience: nat, ghost plan: seq<Step>)
      requires agent.Valid() && agent.activeRun == Some(false)
      ensures this.agent == agent && this.context == context && this.newMessages == [] && this.patience == patience
      ensures origin == agent.State() && queuesBefore == agent.QueueValues() && this.plan == plan && budget == patience
      ensures Valid() && trace == [] && todo == plan
    {
      this.agent := agent;
      this.context := context;
      this.newMessages := [];
      this.patience := patience;
      this.origin := agent.State();
      this.queuesBefore := agent.QueueValues();
      this.plan := plan;
      this.budget := patience;
      this.trace := [];
      this.todo := plan;
    }

    /** The run follows its plan, and the agent and its queues are what folding the steps
        makes of them. */
    ghost predicate Valid()
      reads this, agent, agent.steeringQueue, agent.followUpQueue
    {
      && agent.steeringQueue != agent.followUpQueue
      && agent.activeRun == Some(Aborts(trace))
      && agent.State() == Replay(origin, trace)
      && agent.QueueValues() == QueuesAfter(queuesBefore, trace)
      && trace + todo == plan
      && |trace| + patience == budget
    }

    /** The world threw before the plan was done. */
    ghost predicate CutShort()
      reads this
    {
      patience == 0 && todo != []
    }

    function Variables(): Loop
      reads this, agent.steeringQueue, agent.followUpQueue
    {
      Loop(context, newMessages, agent.QueueValues())
    }

    // ----- Steps

    method Do(step: Step, ghost rest: seq<Step>) returns (ok: bool)
      requires Valid() && todo == [step] + rest && !step.UserDoes? && (step.Poll? ==> step.drained == [])
      modifies this`patience, this`trace, this`todo
      modifies agent`messages, agent`streamingMessage, agent`pendingToolCalls, agent`errorMessage
      ensures Valid() && if ok then todo == rest else CutShort()
    {
      if patience == 0 {
        return false;
      }
      patience := patience - 1;
      if step.Emit? {
        var accepted := agent.ProcessEvents(step.event);
      }
      trace := trace + [step];
      todo := todo[1..];
      ok := true;
    }

    /** One thing the application does to the agent. */
    method DoAct(action: UserAction, ghost rest: seq<Step>) returns (ok: bool)
      requires Valid() && todo == [UserDoes(action)] + rest
      modifies this`patience, this`trace, this`todo, agent, agent.steeringQueue, agent.followUpQueue
      ensures Valid() && if ok then todo == rest else CutShort()
      ensures agent.QueueValues() == if ok then Act(old(agent.QueueValues()), action) else old(agent.QueueValues())
    {
      if patience == 0 {
        return false;
      }
      patience := patience - 1;
      agent.Perform(action);
      trace := trace + [UserDoes(action)];
      todo := todo[1..];
      ok := true;
    }

    /** One poll of a queue; nothing is taken from it if the world throws before. */
    method DoPoll(name: QueueName, ghost rest: seq<Step>) returns (drained: Option<seq<Message>>)
      requires Valid() && todo == [Poll(name, Drained(agent.QueueValues().Get(name)))] + rest
      modifies this`patience, this`trace, this`todo, agent, agent.steeringQueue, agent.followUpQueue
      ensures Valid() && if drained.Some? then todo == rest else CutShort()
      ensures drained.Some? ==> drained.value == Drained(old(agent.QueueValues()).Get(name))
      ensures drained.Some? ==>
        agent.QueueValues() == old(agent.QueueValues()).Put(name, Undrained(old(agent.QueueValues()).Get(name)))
    {
      if patience == 0 {
        return None;
      }
      patience := patience - 1;
      var taken := agent.DrainQueue(name);
      trace := trace + [Poll(name, taken)];
      todo := todo[1..];
      drained := Some(taken);
    }

    method Announce(m: Message, ghost rest: seq<Step>) returns (ok: bool)
      requires Valid() && todo == [Emit(MessageStart(m), context), Emit(MessageEnd(m), context)] + rest
      modifies this`patience, this`trace, this`todo
      modifies agent`messages, agent`streamingMessage, agent`pendingToolCalls, agent`errorMessage
      ensures Valid() && if ok then todo == rest else CutShort()
    {
      ok := Do(Emit(MessageStart(m), context), [Emit(MessageEnd(m), context)] + rest);
      if ok {
        ok := Do(Emit(MessageEnd(m), context), rest);
      }
    }

    // ----- The model's response

    method StreamAssistantResponse(response: Response, ghost rest: seq<Step>) returns (ok: bool)
      requires Valid() && todo == [CallLlm(context)] + StreamSteps(context, false, response) + rest
      modifies this`patience, this`trace, this`todo, this`context
      modifies agent`messages, agent`streamingMessage, agent`pendingToolCalls, agent`errorMessage
      ensures Valid() && if ok then todo == rest else CutShort()
      ensures ok ==> context == AfterStream(old(context), false, response)
    {
      hide Replay, Aborts;
      ok := Do(CallLlm(context), StreamSteps(context, false, response) + rest);
      if !ok {
        return;
      }
      var addedPartial := false;
      var i := 0;
      assert Rest(response, 0) == response;
      while i < |response.events| && !response.events[i].Terminal?
        invariant 0 <= i <= |response.events|
        invariant Valid() && (addedPartial ==> context != [])
        invariant todo == StreamSteps(context, addedPartial, Rest(response, i)) + rest
        invariant AfterStream(old(context), false, response) == AfterStream(context, addedPartial, Rest(response, i))
      {
        ghost var later := Rest(response, i + 1);
        assert Rest(response, i).(events := Rest(response, i).events[1..]) == later;
        match response.events[i] {
          case Start(partial) =>
            context := context + [Assistant(partial)];
            addedPartial := true;
            ok := Do(Emit(MessageStart(Assistant(partial)), context), StreamSteps(context, true, later) + rest);
          case Delta(partial) =>
            if addedPartial {
              context := ReplaceLast(context, Assistant(partial));
              ok := Do(Emit(MessageUpdate(Assistant(partial)), context), StreamSteps(context, true, later) + rest);
            }
        }
        if !ok {
          return;
        }
        i := i + 1;
      }
      var final := Assistant(response.final);
      if addedPartial {
        context := ReplaceLast(context, final);
        ok := Do(Emit(MessageEnd(final), context), rest);
      } else {
        context := context + [final];
        ok := Announce(final, rest);
      }
    }

    // ----- Tool calls

    method EmitToolExecutionEnd(ghost b: Batch, slot: nat, call: ToolCall, outcome: Outcome, ghost rest: seq<Step>)
      returns (ok: bool)
      requires Valid() && context == b.context && slot < |b.plans|
      requires call == b.plans[slot].call && outcome == b.plans[slot].outcome
      requires todo == [EndStep(b, slot)] + rest
      modifies this`patience, this`trace, this`todo
      modifies agent`messages, agent`streamingMessage, agent`pendingToolCalls, agent`errorMessage
      ensures Valid() && if ok then todo == rest else CutShort()
    {
      ok := Do(Emit(ToolEnd(slot, call, outcome.output, outcome.isError), context), rest);
    }

    /** Runs a prepared tool to its end, reporting its updates. */
    method ExecutePreparedToolCall(ghost r: Request, ghost b: Batch, slot: nat, call: ToolCall, tool: Tool,
                                   arguments: Json,
                                   ghost rest: seq<Step>)
      returns (ok: bool, executed: Outcome)
      requires Valid() && context == r.context && slot < |r.Calls()| && call == r.Calls()[slot]
      requires |b.plans| == |r.Calls()| && b.context == r.context
      requires Prepare(r, slot) == Prepared(tool, arguments) && b.plans[slot] == PlanCall(r, slot)
      requires todo == [Execute(slot, call)] + UpdateSteps(b, slot) + rest
      modifies this`patience, this`trace, this`todo
      modifies agent`messages, agent`streamingMessage, agent`pendingToolCalls, agent`errorMessage
      ensures Valid() && if ok then todo == rest else CutShort()
      ensures executed == Resolve(tool.execute(slot, call.id, arguments))
    {
      var execution := tool.execute(slot, call.id, arguments);
      executed := Resolve(execution);
      ghost var updates := UpdateSteps(b, slot);
      ok := Do(Execute(slot, call), updates + rest);
      if ok {
        ok := SendUpdates(b, slot, call, execution.updates, updates, rest);
      }
    }

    /** Reports the first updates of a running tool. */
    method SendUpdates(ghost b: Batch, slot: nat, call: ToolCall, updates: seq<ToolOutput>, ghost steps: seq<Step>,
                       ghost rest: seq<Step>)
      returns (ok: bool)
      requires Valid() && context == b.context && slot < |b.plans| && call == b.plans[slot].call
      requires b.plans[slot].runs && updates <= b.plans[slot].updates
      requires steps == UpdateSteps(b, slot)[..|updates|] && todo == steps + rest
      modifies this`patience, this`trace, this`todo
      modifies agent`messages, agent`streamingMessage, agent`pendingToolCalls, agent`errorMessage
      ensures Valid() && if ok then todo == rest else CutShort()
    {
      ok := true;
      var sent := 0;
      while sent < |updates|
        invariant 0 <= sent <= |updates| && ok
        invariant Valid() && todo == steps[sent..] + rest
      {
        assert steps[sent..] == [steps[sent]] + steps[sent + 1..];
        assert steps[sent] == UpdateSteps(b, slot)[sent];
        ok := Do(Emit(ToolUpdate(slot, call, updates[sent]), context), steps[sent + 1..] + rest);
        if !ok {
          return;
        }
        sent := sent + 1;
      }
    }

    method ExecuteToolCallsSequential(r: Request, ghost b: Batch, ghost blocks: seq<seq<Step>>, ghost rest: seq<Step>)
      returns (batch: Option<ExecutedBatch>)
      requires Valid() && context == r.context && Planned(r, b)
      requires |blocks| == |b.plans|
      requires forall i: nat {:trigger SequentialBlock(b, i)} | i < |blocks| :: blocks[i] == SequentialBlock(b, i)
      requires todo == FlattenFrom(blocks, 0) + rest
      modifies this`patience, this`trace, this`todo
      modifies agent`messages, agent`streamingMessage, agent`pendingToolCalls, agent`errorMessage
      ensures Valid() && if batch.Some? then todo == rest else CutShort()
      ensures batch.Some? ==> Executed(b, batch.value)
    {
      var toolCalls := r.Calls();
      var messages: seq<Message> := [];
      var outcomes: seq<Outcome> := [];
      for i := 0 to |toolCalls|
        invariant Valid() && todo == FlattenFrom(blocks, i) + rest
        invariant |outcomes| == i && forall j | 0 <= j < i :: outcomes[j] == b.plans[j].outcome
        invariant messages == Results(b, i)
      {
        assert FlattenFrom(blocks, i) + rest == blocks[i] + (FlattenFrom(blocks, i + 1) + rest);
        var outcome := ExecuteOne(r, b, i, blocks[i], FlattenFrom(blocks, i + 1) + rest);
        if outcome.None? {
          return None;
        }
        outcomes := outcomes + [outcome.value];
        ResultsGrow(b, i);
        messages := messages + [ToolResultMessage(toolCalls[i], outcome.value)];
      }
      var terminate := ShouldTerminateToolBatch(outcomes);
      batch := Some(ExecutedBatch(messages, terminate));
    }

    /** One call from its start event to its result message. */
    method ExecuteOne(r: Request, ghost b: Batch, slot: nat, ghost block: seq<Step>, ghost rest: seq<Step>)
      returns (outcome: Option<Outcome>)
      requires Valid() && context == r.context == b.context && slot < |r.Calls()| == |b.plans|
      requires b.plans[slot] == PlanCall(r, slot) && block == SequentialBlock(b, slot)
      requires todo == block + rest
      modifies this`patience, this`trace, this`todo
      modifies agent`messages, agent`streamingMessage, agent`pendingToolCalls, agent`errorMessage
      ensures Valid() && if outcome.Some? then todo == rest else CutShort()
      ensures outcome.Some? ==> outcome.value == b.plans[slot].outcome
    {
      ghost var later := ResultSteps(b, slot) + rest;
      var call := r.Calls()[slot];
      ghost var ending := [EndStep(b, slot)] + later;
      BlockParts(b, slot, rest);
      hide SequentialBlock, WorkSteps, EndStep;
      var ok := Do(Emit(ToolStart(slot, call), context), WorkSteps(b, slot) + ending);
      if !ok {
        return None;
      }
      outcome := PrepareAndExecute(r, b, slot, call, ending);
      if outcome.None? {
        return;
      }
      ok := EmitToolExecutionEnd(b, slot, call, outcome.value, later);
      if !ok {
        return None;
      }
      ok := Announce(ToolResultMessage(call, outcome.value), rest);
      if !ok {
        return None;
      }
    }

    /** Decides whether a call may run, runs it if so, and lets `afterToolCall` see the result. */
    method PrepareAndExecute(r: Request, ghost b: Batch, slot: nat, call: ToolCall, ghost rest: seq<Step>)
      returns (outcome: Option<Outcome>)
      requires Valid() && context == r.context == b.context && slot < |r.Calls()| == |b.plans|
        && call == r.Calls()[slot]
      requires b.plans[slot] == PlanCall(r, slot) && todo == WorkSteps(b, slot) + rest
      modifies this`patience, this`trace, this`todo
      modifies agent`messages, agent`streamingMessage, agent`pendingToolCalls, agent`errorMessage
      ensures Valid() && if outcome.Some? then todo == rest else CutShort()
      ensures outcome.Some? ==> outcome.value == b.plans[slot].outcome
    {
      match Prepare(r, slot) {
        case Immediate(output) =>
          outcome := Some(Outcome(output, true));
        case Prepared(tool, arguments) =>
          var ok, executed := ExecutePreparedToolCall(r, b, slot, call, tool, arguments, rest);
          if !ok {
            return None;
          }
          outcome := Some(Finish(r, slot, arguments, executed.output, executed.isError));
      }
    }

    // ----- Parallel execution

    /** Starts every call in source order and ends those that may not run. */
    method PrepareCalls(r: Request, ghost b: Batch, ghost blocks: seq<seq<Step>>, ghost rest: seq<Step>)
      returns (entries: Option<seq<Entry>>)
      requires Valid() && context == r.context && Planned(r, b)
      requires |blocks| == |b.plans|
      requires forall i: nat {:trigger PrepareBlock(b, i)} | i < |blocks| :: blocks[i] == PrepareBlock(b, i)
      requires todo == FlattenFrom(blocks, 0) + rest
      modifies this`patience, this`trace, this`todo
      modifies agent`messages, agent`streamingMessage, agent`pendingToolCalls, agent`errorMessage
      ensures Valid() && if entries.Some? then todo == rest else CutShort()
      ensures entries.Some? ==> |entries.value| == |b.plans|
      ensures entries.Some? ==> forall i: nat | i < |b.plans| :: EntrySound(r, b, i, entries.value[i])
    {
      var toolCalls := r.Calls();
      hide Replay, Aborts, EntrySound, PrepareBlock;
      var prepared: seq<Entry> := [];
      for i := 0 to |toolCalls|
        invariant Valid() && todo == FlattenFrom(blocks, i) + rest
        invariant |prepared| == i
        invariant forall j: nat | j < i :: EntrySound(r, b, j, prepared[j])
      {
        assert FlattenFrom(blocks, i) + rest == blocks[i] + (FlattenFrom(blocks, i + 1) + rest);
        var entry := PrepareOne(r, b, i, blocks[i], FlattenFrom(blocks, i + 1) + rest);
        if entry.None? {
          return None;
        }
        prepared := prepared + [entry.value];
      }
      entries := Some(prepared);
    }

    method PrepareOne(r: Request, ghost b: Batch, slot: nat, ghost block: seq<Step>, ghost rest: seq<Step>)
      returns (entry: Option<Entry>)
      requires Valid() && context == r.context == b.context && slot < |r.Calls()| == |b.plans|
      requires b.plans[slot] == PlanCall(r, slot) && block == PrepareBlock(b, slot)
      requires todo == block + rest
      modifies this`patience, this`trace, this`todo
      modifies agent`messages, agent`streamingMessage, agent`pendingToolCalls, agent`errorMessage
      ensures Valid() && if entry.Some? then todo == rest else CutShort()
      ensures entry.Some? ==> EntrySound(r, b, slot, entry.value)
    {
      var call := r.Calls()[slot];
      ghost var ending := if b.plans[slot].runs then [] else [EndStep(b, slot)];
      assert todo == [StartStep(b, slot)] + (ending + rest);
      var ok := Do(Emit(ToolStart(slot, call), context), ending + rest);
      if !ok {
        return None;
      }
      match Prepare(r, slot) {
        case Immediate(output) =>
          var outcome := Outcome(output, true);
          ok := EmitToolExecutionEnd(b, slot, call, outcome, rest);
          entry := if ok then Some(Finalized(outcome)) else None;
        case Prepared(tool, arguments) =>
          entry := Some(Deferred(tool, arguments));
      }
    }

    /** Launches the prepared calls in source order; none of them gets past its first wait. */
    method LaunchCalls(r: Request, ghost b: Batch, entries: seq<Entry>, ghost blocks: seq<seq<Step>>,
                       ghost tasks: seq<seq<Step>>, ghost rest: seq<Step>)
      returns (states: Option<seq<TaskState>>)
      requires Valid() && context == r.context && Planned(r, b)
      requires |entries| == |blocks| == |tasks| == |b.plans|
      requires forall i: nat | i < |b.plans| :: EntrySound(r, b, i, entries[i])
      requires forall i: nat {:trigger LaunchBlock(b, i)} | i < |blocks| :: blocks[i] == LaunchBlock(b, i)
      requires forall i: nat | i < |tasks| ::
        tasks[i] == if b.plans[i].runs then TaskSteps(b, i)[LaunchLength(b, i)..] else []
      requires todo == FlattenFrom(blocks, 0) + rest
      modifies this`patience, this`trace, this`todo
      modifies agent`messages, agent`streamingMessage, agent`pendingToolCalls, agent`errorMessage
      ensures Valid() && if states.Some? then todo == rest else CutShort()
      ensures states.Some? ==> InStep(r, b, states.value, tasks)
    {
      hide Replay, Aborts, EntrySound, TaskSound, Remaining, Follows, LaunchBlock, LaunchLength, TaskSteps;
      var launched: seq<TaskState> := [];
      for i := 0 to |entries|
        invariant Valid() && todo == FlattenFrom(blocks, i) + rest
        invariant |launched| == i
        invariant forall j: nat {:trigger Follows(r, b, j, launched[j], tasks[j])} | j < i ::
                    Follows(r, b, j, launched[j], tasks[j])
      {
        assert FlattenFrom(blocks, i) + rest == blocks[i] + (FlattenFrom(blocks, i + 1) + rest);
        var state := LaunchOne(r, b, i, entries[i], blocks[i], tasks[i], FlattenFrom(blocks, i + 1) + rest);
        if state.None? {
          return None;
        }
        ghost var before := launched;
        launched := launched + [state.value];
        forall j: nat | j < i ensures Follows(r, b, j, launched[j], tasks[j]) {
          assert Follows(r, b, j, before[j], tasks[j]);
        }
      }
      states := Some(launched);
    }

    /** Executes the tool of one prepared call and reports what the tool sends at once. */
    method LaunchOne(r: Request, ghost b: Batch, slot: nat, entry: Entry, ghost block: seq<Step>, ghost task: seq<Step>,
                     ghost rest: seq<Step>)
      returns (state: Option<TaskState>)
      requires Valid() && context == r.context == b.context && slot < |r.Calls()| == |b.plans|
      requires b.plans[slot].call == r.Calls()[slot]
      requires EntrySound(r, b, slot, entry) && block == LaunchBlock(b, slot)
      requires task == if b.plans[slot].runs then TaskSteps(b, slot)[LaunchLength(b, slot)..] else []
      requires todo == block + rest
      modifies this`patience, this`trace, this`todo
      modifies agent`messages, agent`streamingMessage, agent`pendingToolCalls, agent`errorMessage
      ensures Valid() && if state.Some? then todo == rest else CutShort()
      ensures state.Some? ==> Follows(r, b, slot, state.value, task)
    {
      hide Replay, Aborts, QueuesAfter;
      match entry {
        case Finalized(outcome) =>
          state := Some(Ended(outcome));
        case Deferred(tool, arguments) =>
          var call := r.Calls()[slot];
          var execution := tool.execute(slot, call.id, arguments);
          var atOnce := AtOnce(execution.updates, execution.eager);
          ghost var updates := UpdateSteps(b, slot)[..atOnce];
          assert block == [Execute(slot, call)] + updates;
          var ok := Do(Execute(slot, call), updates + rest);
          if ok {
            ok := SendUpdates(b, slot, call, execution.updates[..atOnce], updates, rest);
          }
          state := if ok then Some(Running(arguments, execution, atOnce)) else None;
      }
    }

    /** Lets the prepared calls run concurrently until all of them have ended. */
    method RunTasks(r: Request, ghost b: Batch, initial: seq<TaskState>, ghost tasks: seq<seq<Step>>,
                    schedule: seq<nat>,
                    ghost rest: seq<Step>)
      returns (outcomes: Option<seq<Outcome>>)
      requires Valid() && context == r.context && Planned(r, b)
      requires InStep(r, b, initial, tasks)
      requires todo == Shuffle(tasks, schedule) + rest
      modifies this`patience, this`trace, this`todo
      modifies agent`messages, agent`streamingMessage, agent`pendingToolCalls, agent`errorMessage
      ensures Valid() && if outcomes.Some? then todo == rest else CutShort()
      ensures outcomes.Some? ==> |outcomes.value| == |b.plans|
      ensures outcomes.Some? ==> forall i | 0 <= i < |b.plans| :: outcomes.value[i] == b.plans[i].outcome
    {
      hide Replay, Aborts;
      var states := initial;
      ghost var left := tasks;
      var ticks := schedule;
      while !AllEnded(states)
        invariant Valid() && InStep(r, b, states, left)
        invariant todo == Shuffle(left, ticks) + rest
        decreases TotalLength(left)
      {
        var slot := NextTask(states, ticks);
        assert Follows(r, b, slot, states[slot], left[slot]);
        LiveIsBusy(r, b, states, left, ticks);
        ghost var next := Advance(left, slot);
        var later := if ticks == [] then [] else ticks[1..];
        AdvanceShrinks(left, slot);
        var state := StepTask(r, b, slot, states[slot], left[slot], Shuffle(next, later) + rest);
        if state.None? {
          return None;
        }
        InStepAdvances(r, b, states, left, slot, state.value);
        states := states[slot := state.value];
        left := next;
        ticks := later;
      }
      AllFinished(r, b, states, left);
      outcomes := Some(seq(|states|, i requires 0 <= i < |states| && AllEnded(states) => states[i].outcome));
    }

    /** One step of one running call. */
    method StepTask(r: Request, ghost b: Batch, slot: nat, state: TaskState, ghost task: seq<Step>,
                    ghost rest: seq<Step>)
      returns (next: Option<TaskState>)
      requires Valid() && context == r.context == b.context && slot < |r.Calls()| == |b.plans|
      requires b.plans[slot].call == r.Calls()[slot]
      requires Follows(r, b, slot, state, task) && !state.Ended? && todo == [task[0]] + rest
      modifies this`patience, this`trace, this`todo
      modifies agent`messages, agent`streamingMessage, agent`pendingToolCalls, agent`errorMessage
      ensures Valid() && if next.Some? then todo == rest else CutShort()
      ensures next.Some? ==> Follows(r, b, slot, next.value, task[1..])
    {
      var call := r.Calls()[slot];
      var Running(arguments, execution, sent) := state;
      var ok: bool;
      if sent < |execution.updates| {
        assert task[0] == UpdateSteps(b, slot)[sent];
        ok := Do(Emit(ToolUpdate(slot, call, execution.updates[sent]), context), rest);
        next := if ok then Some(Running(arguments, execution, sent + 1)) else None;
      } else {
        var executed := Resolve(execution);
        var outcome := Finish(r, slot, arguments, executed.output, executed.isError);
        ok := EmitToolExecutionEnd(b, slot, call, outcome, rest);
        next := if ok then Some(Ended(outcome)) else None;
      }
    }

    /** The result messages, in source order. */
    method ReportResults(r: Request, ghost b: Batch, outcomes: seq<Outcome>, ghost blocks: seq<seq<Step>>,
                         ghost rest: seq<Step>)
      returns (messages: Option<seq<Message>>)
      requires Valid() && context == r.context && Planned(r, b)
      requires |blocks| == |outcomes| == |b.plans|
      requires forall i: nat {:trigger ResultSteps(b, i)} | i < |blocks| :: blocks[i] == ResultSteps(b, i)
      requires forall i | 0 <= i < |b.plans| :: outcomes[i] == b.plans[i].outcome
      requires todo == FlattenFrom(blocks, 0) + rest
      modifies this`patience, this`trace, this`todo
      modifies agent`messages, agent`streamingMessage, agent`pendingToolCalls, agent`errorMessage
      ensures Valid() && if messages.Some? then todo == rest else CutShort()
      ensures messages.Some? ==> messages.value == AllResults(b)
    {
      var toolCalls := r.Calls();
      var reported: seq<Message> := [];
      for i := 0 to |toolCalls|
        invariant Valid() && todo == FlattenFrom(blocks, i) + rest
        invariant reported == Results(b, i)
      {
        var m := ToolResultMessage(toolCalls[i], outcomes[i]);
        ResultsGrow(b, i);
        assert blocks[i] == ResultSteps(b, i);
        var ok := Announce(m, FlattenFrom(blocks, i + 1) + rest);
        if !ok {
          return None;
        }
        reported := reported + [m];
      }
      messages := Some(reported);
    }

    method ExecuteToolCallsParallel(r: Request, ghost b: Batch, schedule: seq<nat>, ghost prepare: seq<seq<Step>>,
                                    ghost launch: seq<seq<Step>>, ghost tasks: seq<seq<Step>>,
                                    ghost report: seq<seq<Step>>, ghost rest: seq<Step>)
      returns (batch: Option<ExecutedBatch>)
      requires Valid() && context == r.context && Planned(r, b)
      requires |prepare| == |launch| == |tasks| == |report| == |b.plans|
      requires forall i: nat {:trigger PrepareBlock(b, i)} | i < |prepare| :: prepare[i] == PrepareBlock(b, i)
      requires forall i: nat {:trigger LaunchBlock(b, i)} | i < |launch| :: launch[i] == LaunchBlock(b, i)
      requires forall i: nat | i < |tasks| ::
        tasks[i] == if b.plans[i].runs then TaskSteps(b, i)[LaunchLength(b, i)..] else []
      requires forall i: nat {:trigger ResultSteps(b, i)} | i < |report| :: report[i] == ResultSteps(b, i)
      requires todo ==
        FlattenFrom(prepare, 0) +
          (FlattenFrom(launch, 0) + (Shuffle(tasks, schedule) + (FlattenFrom(report, 0) + rest)))
      modifies this`patience, this`trace, this`todo
      modifies agent`messages, agent`streamingMessage, agent`pendingToolCalls, agent`errorMessage
      ensures Valid() && if batch.Some? then todo == rest else CutShort()
      ensures batch.Some? ==> Executed(b, batch.value)
    {
      ghost var reporting := FlattenFrom(report, 0) + rest;
      ghost var running := Shuffle(tasks, schedule) + reporting;
      var entries := PrepareCalls(r, b, prepare, FlattenFrom(launch, 0) + running);
      if entries.None? {
        return None;
      }
      var states := LaunchCalls(r, b, entries.value, launch, tasks, running);
      if states.None? {
        return None;
      }
      var outcomes := RunTasks(r, b, states.value, tasks, schedule, reporting);
      if outcomes.None? {
        return None;
      }
      var messages := ReportResults(r, b, outcomes.value, report, rest);
      if messages.None? {
        return None;
      }
      var terminate := ShouldTerminateToolBatch(outcomes.value);
      batch := Some(ExecutedBatch(messages.value, terminate));
    }

    /** One sequential tool, or a sequential configuration, keeps the whole batch sequential. */
    method ExecuteToolCalls(r: Request, ghost b: Batch, schedule: seq<nat>, ghost rest: seq<Step>)
      returns (batch: Option<ExecutedBatch>)
      requires Valid() && context == r.context && Planned(r, b) && b.sequential == RunsSequentially(r)
      requires todo == BatchSteps(b, schedule) + rest
      modifies this`patience, this`trace, this`todo
      modifies agent`messages, agent`streamingMessage, agent`pendingToolCalls, agent`errorMessage
      ensures Valid() && if batch.Some? then todo == rest else CutShort()
      ensures batch.Some? ==> Executed(b, batch.value)
    {
      if RunsSequentially(r) {
        SequentialParts(b, rest);
        batch := ExecuteToolCallsSequential(r, b, SequentialBlocks(b), rest);
      } else {
        ParallelParts(b, schedule, rest);
        batch := ExecuteToolCallsParallel(r, b, schedule, PrepareBlocks(b), LaunchBlocks(b), Launched(b),
                                          ReportBlocks(b), rest);
      }
    }

    // ----- One turn

    /** Announces the pending messages and pushes each onto the context. */
    method InjectPending(pending: seq<Message>, ghost rest: seq<Step>) returns (ok: bool)
      requires Valid() && todo == InjectSteps(context, pending) + rest
      modifies this`context, this`newMessages
      modifies this`patience, this`trace, this`todo
      modifies agent`messages, agent`streamingMessage, agent`pendingToolCalls, agent`errorMessage
      ensures Valid() && if ok then todo == rest else CutShort()
      ensures ok ==> context == old(context) + pending && newMessages == old(newMessages) + pending
    {
      hide Replay, Aborts;
      ok := true;
      for i := 0 to |pending|
        invariant ok && Valid() && todo == InjectSteps(context, pending[i..]) + rest
        invariant context == old(context) + pending[..i] && newMessages == old(newMessages) + pending[..i]
      {
        var m := pending[i];
        assert pending[i..][1..] == pending[i + 1..];
        ok := Announce(m, InjectSteps(context + [m], pending[i + 1..]) + rest);
        if !ok {
          return;
        }
        context := context + [m];
        newMessages := newMessages + [m];
      }
    }

    /** Opens the turn, unless the run has just opened it, and injects what is pending. */
    method Ask(pending: seq<Message>, firstTurn: bool, ghost rest: seq<Step>) returns (ok: bool)
      requires Valid() && todo == AskSteps(context, pending, firstTurn) + rest
      modifies this`context, this`newMessages
      modifies this`patience, this`trace, this`todo
      modifies agent`messages, agent`streamingMessage, agent`pendingToolCalls, agent`errorMessage
      ensures Valid() && if ok then todo == rest else CutShort()
      ensures ok ==> context == old(context) + pending && newMessages == old(newMessages) + pending
    {
      if !firstTurn {
        ok := Do(Emit(TurnStart, context), InjectSteps(context, pending) + rest);
        if !ok {
          return;
        }
      }
      ok := InjectPending(pending, rest);
    }

    /** Runs the tool calls of the response, if it may and has any, and pushes their results. */
    method AnswerToolCalls(ghost asked: seq<Message>, t: TurnInput, ghost rest: seq<Step>)
      returns (batch: Option<ExecutedBatch>)
      requires Valid() && context == AfterStream(asked, false, t.response) && !Failed(t.response.final)
      requires todo == ActSteps(asked, t) + rest
      modifies this`context, this`newMessages
      modifies this`patience, this`trace, this`todo
      modifies agent`messages, agent`streamingMessage, agent`pendingToolCalls, agent`errorMessage
      ensures Valid() && if batch.Some? then todo == rest else CutShort()
      ensures batch.Some? ==> batch.value.messages == TurnResults(asked, t)
      ensures batch.Some? ==> (!batch.value.terminate <==> Demands(asked, t))
      ensures batch.Some? ==> context == old(context) + TurnResults(asked, t)
      ensures batch.Some? ==> newMessages == old(newMessages) + TurnResults(asked, t)
    {
      var request := Request(t.box, context, t.response.final);
      ghost var b := PlanBatch(request);
      PlanBatchPlanned(request);
      if request.Calls() == [] {
        return Some(ExecutedBatch([], true));
      }
      batch := ExecuteToolCalls(request, b, t.schedule, rest);
      if batch.None? {
        return;
      }
      context := context + batch.value.messages;
      newMessages := newMessages + batch.value.messages;
    }

    /** One turn, from its start event to its end event; says whether tools ask for another. */
    method RunTurn(pending: seq<Message>, firstTurn: bool, t: TurnInput, ghost rest: seq<Step>)
      returns (more: Option<bool>)
      requires Valid() && todo == TurnSteps(Variables(), pending, firstTurn, t) + rest
      modifies this`context, this`newMessages
      modifies this`patience, this`trace, this`todo
      modifies agent`messages, agent`streamingMessage, agent`pendingToolCalls, agent`errorMessage
      ensures Valid() && if more.Some? then todo == rest else CutShort()
      ensures more.Some? ==> Variables() == AfterTurn(old(Variables()), pending, t)
      ensures more.Some? && !Failed(t.response.final) ==> more.value == Demands(old(context) + pending, t)
    {
      ghost var asked, end := context + pending, AfterTurn(Variables(), pending, t);
      ghost var closing := [Emit(TurnEnd(Assistant(t.response.final), TurnResults(asked, t)), end.context)] + rest;
      TurnParts(Variables(), pending, firstTurn, t, rest);
      var ok := Ask(pending, firstTurn, AnswerSteps(asked, t) + (ActSteps(asked, t) + closing));
      if !ok {
        return None;
      }
      AnswerParts(asked, t, ActSteps(asked, t) + closing);
      ok := StreamAssistantResponse(t.response, ActSteps(asked, t) + closing);
      if !ok {
        return None;
      }
      newMessages := newMessages + [Assistant(t.response.final)];
      var results := [];
      var wanted := false;
      if !Failed(t.response.final) {
        var batch := AnswerToolCalls(asked, t, closing);
        if batch.None? {
          return None;
        }
        results := batch.value.messages;
        wanted := !batch.value.terminate;
      } else {
        NoActSteps(asked, t, closing);
      }
      assert context == end.context && results == TurnResults(asked, t);
      ok := Do(Emit(TurnEnd(Assistant(t.response.final), results), context), rest);
      more := if ok then Some(wanted) else None;
    }

    // ----- Polls

    /** What the application does to the agent while the loop is elsewhere. */
    method LetUsersAct(actions: seq<UserAction>, ghost rest: seq<Step>) returns (ok: bool)
      requires Valid() && todo == ActionSteps(actions) + rest
      modifies this`patience, this`trace, this`todo, agent, agent.steeringQueue, agent.followUpQueue
      ensures Valid() && if ok then todo == rest else CutShort()
      ensures ok ==> agent.QueueValues() == ActAll(old(agent.QueueValues()), actions)
    {
      ok := true;
      for i := 0 to |actions|
        invariant ok && Valid() && todo == ActionSteps(actions[i..]) + rest
        invariant ActAll(agent.QueueValues(), actions[i..]) == ActAll(old(agent.QueueValues()), actions)
      {
        assert actions[i..][1..] == actions[i + 1..];
        ok := DoAct(actions[i], ActionSteps(actions[i + 1..]) + rest);
        if !ok {
          return;
        }
      }
    }

    method PollQueue(name: QueueName, actions: seq<UserAction>, ghost rest: seq<Step>)
      returns (drained: Option<seq<Message>>)
      requires Valid() && todo == PollSteps(agent.QueueValues(), name, actions) + rest
      modifies this`patience, this`trace, this`todo, agent, agent.steeringQueue, agent.followUpQueue
      ensures Valid() && if drained.Some? then todo == rest else CutShort()
      ensures drained.Some? ==> drained.value == PolledMessages(old(agent.QueueValues()), name, actions)
      ensures drained.Some? ==> agent.QueueValues() == AfterPoll(old(agent.QueueValues()), name, actions)
    {
      ghost var answer := PolledMessages(agent.QueueValues(), name, actions);
      var ok := LetUsersAct(actions, [Poll(name, answer)] + rest);
      if !ok {
        return None;
      }
      drained := DoPoll(name, rest);
    }

    // ----- The nested loops

    /** Reports the end of the run. */
    method EndRun() returns (ok: bool)
      requires Valid() && todo == [Emit(AgentEnd(newMessages), context)]
      modifies this`patience, this`trace, this`todo
      modifies agent`messages, agent`streamingMessage, agent`pendingToolCalls, agent`errorMessage
      ensures Valid() && if ok then todo == [] else CutShort()
    {
      ok := Do(Emit(AgentEnd(newMessages), context), []);
    }

    /** `prepareNextTurn`, which may replace the context, then `shouldStopAfterTurn`. */
    method PrepareNextTurn(t: TurnInput, more: bool, ghost rest: seq<Step>) returns (ok: bool)
      requires Valid() && todo == HookSteps(Variables(), t, more) + rest
      modifies this`context
      modifies this`patience, this`trace, this`todo
      modifies agent`messages, agent`streamingMessage, agent`pendingToolCalls, agent`errorMessage
      ensures Valid() && if ok then todo == rest else CutShort()
      ensures ok ==> Variables() == AfterPrepare(old(Variables()), t)
    {
      ghost var replacing := if t.context.Some? then [Override(t.context.value)] else [];
      ok := Do(TurnDone(context, newMessages, more), replacing + ([Decide(t.stop)] + rest));
      if ok && t.context.Some? {
        context := t.context.value;
        ok := Do(Override(context), [Decide(t.stop)] + rest);
      }
      if ok {
        ok := Do(Decide(t.stop), rest);
      }
    }

    /** What is left of the plan is `left`, and it ends as `run` does. */
    ghost predicate GoesOn(left: Run, run: Run)
      reads this
    {
      todo == left.steps && left.finished == run.finished && left.end == run.end
    }

    /** What the inner loop goes on with: another turn, or the follow-up poll. */
    ghost function Onward(more: bool, pending: seq<Message>, t: TurnInput, later: seq<TurnInput>): Run
      reads this, agent.steeringQueue, agent.followUpQueue
    {
      if more || pending != [] then RunFrom(Variables(), pending, false, later) else WouldStop(Variables(), t, later)
    }

    /** The run is over: either at its end, or cut, or for want of an answer to another turn. */
    ghost predicate Over(ended: bool, run: Run)
      reads this, agent.steeringQueue, agent.followUpQueue
    {
      if ended then todo == [] && run.finished && Variables() == run.end
      else CutShort() || (todo == [] && !run.finished)
    }

    /** From the `turn_end` of a turn to the steering poll that closes the iteration; None
        when the run is over. */
    method Conclude(t: TurnInput, more: bool, ghost ls: Loop, ghost pending: seq<Message>, ghost later: seq<TurnInput>,
                    ghost run: Run)
      returns (next: Option<seq<Message>>, ended: bool)
      requires Valid() && Variables() == AfterTurn(ls, pending, t)
      requires !Failed(t.response.final) ==> more == Demands(ls.context + pending, t)
      requires GoesOn(AfterResponse(ls, pending, t, later), run)
      modifies this`context, this`newMessages
      modifies this`patience, this`trace, this`todo, agent, agent.steeringQueue, agent.followUpQueue
      ensures Valid() && if next.Some? then GoesOn(Onward(more, next.value, t, later), run) else Over(ended, run)
    {
      next := None;
      ended := false;
      if Failed(t.response.final) {
        ended := EndRun();
        return;
      }
      ghost var hooked := AfterPrepare(Variables(), t);
      ghost var stopping := if t.stop then Close(hooked) else AfterStop(hooked, more, t, later);
      var ok := PrepareNextTurn(t, more, stopping.steps);
      if !ok {
        return;
      }
      if t.stop {
        ended := EndRun();
        return;
      }
      ghost var polled := AfterSteering(hooked, t);
      ghost var steered := PolledMessages(hooked.queues, Steering, t.beforeSteering);
      ghost var going := if more || steered != [] then RunFrom(polled, steered, false, later)
        else WouldStop(polled, t, later);
      next := PollQueue(Steering, t.beforeSteering, going.steps);
    }

    /** The body of the inner loop. */
    method Iterate(pending: seq<Message>, firstTurn: bool, script: seq<TurnInput>, i: nat, ghost run: Run)
      returns (more: bool, next: Option<seq<Message>>, ended: bool)
      requires Valid() && i < |script| && GoesOn(RunFrom(Variables(), pending, firstTurn, script[i..]), run)
      modifies this`context, this`newMessages
      modifies this`patience, this`trace, this`todo, agent, agent.steeringQueue, agent.followUpQueue
      ensures Valid()
      ensures if next.Some? then GoesOn(Onward(more, next.value, script[i], script[i + 1..]), run) else Over(ended, run)
    {
      ghost var ls, later := Variables(), script[i + 1..];
      assert script[i..][1..] == later;
      var t := script[i];
      var wanted := RunTurn(pending, firstTurn, t, AfterResponse(ls, pending, t, later).steps);
      if wanted.None? {
        return false, None, false;
      }
      more := wanted.value;
      next, ended := Conclude(t, more, ls, pending, later, run);
    }

    /** The inner loop: turns from the `from`-th on, while tools or steering ask for more.
        Returns how many turns of the script are used, None when the run is over. */
    method RunTurns(initialPending: seq<Message>, first: bool, script: seq<TurnInput>, from: nat, ghost run: Run)
      returns (used: Option<nat>, ended: bool)
      requires Valid() && from <= |script| && GoesOn(RunFrom(Variables(), initialPending, first, script[from..]), run)
      modifies this`context, this`newMessages
      modifies this`patience, this`trace, this`todo, agent, agent.steeringQueue, agent.followUpQueue
      ensures Valid() && (used.Some? ==> from < used.value <= |script|)
      ensures if used.Some? then GoesOn(WouldStop(Variables(), script[used.value - 1], script[used.value..]), run)
              else Over(ended, run)
    {
      hide RunFrom, WouldStop;
      var pending, firstTurn, hasMoreToolCalls, i := initialPending, first, true, from;
      while hasMoreToolCalls || pending != []
        invariant from <= i <= |script| && Valid()
        invariant if i == from then hasMoreToolCalls
          && GoesOn(RunFrom(Variables(), pending, firstTurn, script[i..]), run)
                  else !firstTurn && GoesOn(Onward(hasMoreToolCalls, pending, script[i - 1], script[i..]), run)
        decreases |script| - i
      {
        if i == |script| {
          NoAnswer(Variables(), pending, firstTurn, script[i..]);
          return None, false;
        }
        var next;
        hasMoreToolCalls, next, ended := Iterate(pending, firstTurn, script, i, run);
        if next.None? {
          return None, ended;
        }
        firstTurn, pending := false, next.value;
        i := i + 1;
      }
      return Some(i), false;
    }

    /** The poll of the outer loop: the agent would stop here unless a follow-up is queued. */
    method PollFollowUps(t: TurnInput, ghost later: seq<TurnInput>, ghost run: Run)
      returns (drained: Option<seq<Message>>)
      requires Valid() && GoesOn(WouldStop(Variables(), t, later), run)
      modifies this`patience, this`trace, this`todo, agent, agent.steeringQueue, agent.followUpQueue
      ensures Valid() && (drained.None? ==> CutShort())
      ensures drained.Some? ==>
        GoesOn(if drained.value != [] then RunFrom(Variables(), drained.value, false, later)
               else Close(Variables()), run)
    {
      ghost var followed := PolledMessages(agent.QueueValues(), FollowUp, t.beforeFollowUp);
      ghost var next := AfterFollowUp(Variables(), t);
      ghost var going := if followed != [] then RunFrom(next, followed, false, later) else Close(next);
      drained := PollQueue(FollowUp, t.beforeFollowUp, going.steps);
    }

    /** Runs turns while tools or queued messages ask for more. Fails when the world throws,
        or when it has no answer for a further turn. */
    method RunLoop(initialPending: seq<Message>, script: seq<TurnInput>, ghost run: Run) returns (ended: bool)
      requires Valid() && GoesOn(RunFrom(Variables(), initialPending, true, script), run)
      modifies this`context, this`newMessages
      modifies this`patience, this`trace, this`todo, agent, agent.steeringQueue, agent.followUpQueue
      ensures Valid() && Over(ended, run)
    {
      hide RunFrom, WouldStop;
      var pending, firstTurn, i := initialPending, true, 0;
      assert script[0..] == script;
      while true
        invariant 0 <= i <= |script| && Valid()
        invariant GoesOn(RunFrom(Variables(), pending, firstTurn, script[i..]), run)
        decreases |script| - i
      {
        var used;
        used, ended := RunTurns(pending, firstTurn, script, i, run);
        if used.None? {
          return;
        }
        i := used.value;
        firstTurn := false;
        var followUps := PollFollowUps(script[i - 1], script[i..], run);
        if followUps.None? {
          return false;
        }
        if followUps.value == [] {
          break;
        }
        pending := followUps.value;
      }
      ended := EndRun();
    }

    // ----- Whole runs

    /** Announces the prompts, which the context already holds. */
    method AnnouncePrompts(prompts: seq<Message>, ghost rest: seq<Step>) returns (ok: bool)
      requires Valid() && todo == PromptSteps(context, prompts) + rest
      modifies this`patience, this`trace, this`todo
      modifies agent`messages, agent`streamingMessage, agent`pendingToolCalls, agent`errorMessage
      ensures Valid() && if ok then todo == rest else CutShort()
    {
      ok := true;
      for i := 0 to |prompts|
        invariant ok && Valid() && todo == PromptSteps(context, prompts[i..]) + rest
      {
        assert prompts[i..][1..] == prompts[i + 1..];
        ok := Announce(prompts[i], PromptSteps(context, prompts[i + 1..]) + rest);
        if !ok {
          return;
        }
      }
    }

    /** The steering poll before the first turn, which a continuation may have to skip. */
    method PollFirst(skip: bool, actions: seq<UserAction>, ghost rest: seq<Step>)
      returns (pending: Option<seq<Message>>)
      requires Valid() && todo == FirstPoll(agent.QueueValues(), skip, actions).0 + rest
      modifies this`patience, this`trace, this`todo, agent, agent.steeringQueue, agent.followUpQueue
      ensures Valid() && if pending.Some? then todo == rest else CutShort()
      ensures pending.Some? ==> pending.value == FirstPoll(old(agent.QueueValues()), skip, actions).1
      ensures pending.Some? ==> agent.QueueValues() == FirstPoll(old(agent.QueueValues()), skip, actions).2
    {
      if !skip {
        pending := PollQueue(Steering, actions, rest);
        return;
      }
      var ok := LetUsersAct(actions, [Poll(Steering, [])] + rest);
      if ok {
        ok := Do(Poll(Steering, []), rest);
      }
      pending := if ok then Some([]) else None;
    }

    /** Starts a run with prompts; the context the run was given holds everything before. */
    method RunAgentLoop(input: RunInput, ghost run: Run) returns (ended: bool)
      requires Valid() && run == WholeRun(context, agent.QueueValues(), input) && todo == run.steps
      modifies this`context, this`newMessages
      modifies this`patience, this`trace, this`todo, agent, agent.steeringQueue, agent.followUpQueue
      ensures Valid() && Over(ended, run)
    {
      hide Replay, Aborts, RunFrom, PromptSteps, FirstPoll;
      newMessages := input.prompts;
      context := context + input.prompts;
      ghost var (polls, firstPending, polled) := FirstPoll(agent.QueueValues(), input.skipFirstPoll, input.beforeStart);
      ghost var going := RunFrom(Loop(context, input.prompts, polled), firstPending, true, input.script);
      ghost var opening := PromptSteps(context, input.prompts) + (polls + going.steps);
      OpeningParts(context, input.prompts, polls, going.steps);
      var ok := Do(Emit(AgentStart, context), [Emit(TurnStart, context)] + opening);
      if ok {
        ok := Do(Emit(TurnStart, context), opening);
      }
      if ok {
        ok := AnnouncePrompts(input.prompts, polls + going.steps);
      }
      if !ok {
        return false;
      }
      var pending := PollFirst(input.skipFirstPoll, input.beforeStart, going.steps);
      if pending.None? {
        return false;
      }
      ended := RunLoop(pending.value, input.script, run);
    }

    /** Starts a run from the context as it is; refuses, before any step, a context that is
        empty or ends with an assistant message. */
    method RunAgentLoopContinue(input: RunInput, ghost run: Run) returns (refused: bool, ended: bool)
      requires Valid() && input.prompts == []
      requires run == WholeRun(context, agent.QueueValues(), input) && todo == run.steps
      modifies this`context, this`newMessages
      modifies this`patience, this`trace, this`todo, agent, agent.steeringQueue, agent.followUpQueue
      ensures Valid()
      ensures refused <==> old(context) == [] || old(context)[|old(context)| - 1].Assistant?
      ensures refused ==>
        trace == old(trace) && context == old(context) && agent.QueueValues() == old(agent.QueueValues())
      ensures !refused ==> Over(ended, run)
    {
      if context == [] || context[|context| - 1].Assistant? {
        return true, false;
      }
      refused := false;
      ended := RunAgentLoop(input, run);
    }
  }

  lemma OpeningParts(context: seq<Message>, prompts: seq<Message>, polls: seq<Step>, going: seq<Step>)
    ensures [Emit(AgentStart, context), Emit(TurnStart, context)] + PromptSteps(context, prompts) + polls + going ==
      [Emit(AgentStart, context)] + ([Emit(TurnStart, context)] + (PromptSteps(context, prompts) + (polls + going)))
  {
  }

  lemma NoAnswer(ls: Loop, pending: seq<Message>, first: bool, script: seq<TurnInput>)
    requires script == []
    ensures RunFrom(ls, pending, first, script) == Run([], ls, false)
  {
  }

  lemma TurnParts(ls: Loop, pending: seq<Message>, first: bool, t: TurnInput, rest: seq<Step>)
    ensures var asked := ls.context + pending;
            TurnSteps(ls, pending, first, t) + rest ==
              AskSteps(ls.context, pending, first) + (AnswerSteps(asked, t) + (ActSteps(asked, t) +
              ([TurnEndStep(ls, pending, t)] + rest)))
  {
    var asked := ls.context + pending;
    Reassociate(AskSteps(ls.context, pending, first), AnswerSteps(asked, t), ActSteps(asked, t),
                [TurnEndStep(ls, pending, t)], rest);
  }

  lemma Reassociate(a: seq<Step>, b: seq<Step>, c: seq<Step>, d: seq<Step>, rest: seq<Step>)
    ensures a + b + c + d + rest == a + (b + (c + (d + rest)))
  {
  }

  lemma AnswerParts(asked: seq<Message>, t: TurnInput, rest: seq<Step>)
    ensures AnswerSteps(asked, t) + rest == [CallLlm(asked)] + StreamSteps(asked, false, t.response) + rest
  {
  }

  lemma NoActSteps(asked: seq<Message>, t: TurnInput, rest: seq<Step>)
    requires Failed(t.response.final)
    ensures ActSteps(asked, t) + rest == rest && TurnResults(asked, t) == []
  {
    assert ActSteps(asked, t) == [];
  }

  lemma SequentialParts(b: Batch, rest: seq<Step>)
    ensures SequentialSteps(b) + rest == FlattenFrom(SequentialBlocks(b), 0) + rest
  {
    FlattenWhole(SequentialBlocks(b));
  }

  lemma ParallelParts(b: Batch, schedule: seq<nat>, rest: seq<Step>)
    ensures ParallelSteps(b, schedule) + rest ==
      FlattenFrom(PrepareBlocks(b), 0) + (FlattenFrom(LaunchBlocks(b), 0) +
      (Shuffle(Launched(b), schedule) + (FlattenFrom(ReportBlocks(b), 0) + rest)))
  {
    Regroup(PrepareBlocks(b), LaunchBlocks(b), Shuffle(Launched(b), schedule), ReportBlocks(b), rest);
  }

  lemma Regroup(prepare: seq<seq<Step>>, launch: seq<seq<Step>>, work: seq<Step>, report: seq<seq<Step>>,
                rest: seq<Step>)
    ensures Flatten(prepare, |prepare|) + (Flatten(launch, |launch|) + work) + Flatten(report, |report|) + rest ==
      FlattenFrom(prepare, 0) + (FlattenFrom(launch, 0) + (work + (FlattenFrom(report, 0) + rest)))
  {
    FlattenWhole(prepare);
    FlattenWhole(launch);
    FlattenWhole(report);
  }

  lemma LiveIsBusy(r: Request, b: Batch, states: seq<TaskState>, tasks: seq<seq<Step>>, schedule: seq<nat>)
    requires |r.Calls()| == |b.plans| && InStep(r, b, states, tasks) && !AllEnded(states)
    ensures !Exhausted(tasks) && Pick(tasks, schedule) == NextTask(states, schedule)
  {
    forall i: nat | i < |states| ensures tasks[i] == [] <==> states[i].Ended? {
      assert Follows(r, b, i, states[i], tasks[i]);
    }
    FirstLiveIsFirstBusy(states, tasks, 0);
  }

  lemma InStepAdvances(r: Request, b: Batch, states: seq<TaskState>, tasks: seq<seq<Step>>, slot: nat, state: TaskState)
    requires |r.Calls()| == |b.plans| && InStep(r, b, states, tasks)
    requires slot < |tasks| && tasks[slot] != [] && Follows(r, b, slot, state, tasks[slot][1..])
    ensures InStep(r, b, states[slot := state], Advance(tasks, slot))
  {
    forall i: nat | i < |states|
      ensures Follows(r, b, i, states[slot := state][i], Advance(tasks, slot)[i])
    {
      if i != slot {
        assert Follows(r, b, i, states[i], tasks[i]);
      }
    }
  }

  lemma AllFinished(r: Request, b: Batch, states: seq<TaskState>, tasks: seq<seq<Step>>)
    requires |r.Calls()| == |b.plans| && InStep(r, b, states, tasks) && AllEnded(states)
    ensures Exhausted(tasks)
    ensures forall i | 0 <= i < |states| :: states[i].Ended? && states[i].outcome == b.plans[i].outcome
  {
    forall i: nat | i < |states| ensures tasks[i] == [] && states[i].Ended? && states[i].outcome == b.plans[i].outcome {
      assert Follows(r, b, i, states[i], tasks[i]);
    }
  }

  method ShouldTerminateToolBatch(outcomes: seq<Outcome>) returns (terminate: bool)
    ensures terminate <==>
      outcomes != [] && forall i | 0 <= i < |outcomes| :: outcomes[i].output.terminate == Some(true)
  {
    terminate := |outcomes| > 0;
    for i := 0 to |outcomes|
      invariant terminate <==> outcomes != [] && forall j | 0 <= j < i :: outcomes[j].output.terminate == Some(true)
    {
      if outcomes[i].output.terminate != Some(true) {
        terminate := false;
      }
    }
  }
}
