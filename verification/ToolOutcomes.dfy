/** What listeners and the model are told of a tool call, in terms of the tool itself. */
module ToolOutcomes {
  import opened Messages
  import opened Reducer
  import opened Tools
  import opened ToolBatch
  import opened LoopSpec
  import opened BatchTheorems
  import opened LoopSafety
  import opened Watching

  // ----- What a call ends with

  /** How an error is put into a tool result. */
  predicate IsError(outcome: Outcome, text: string) {
    outcome == Outcome(ToolOutput(text, "{}", None), true)
  }

  /** What comes of running the tool: its output, or an error result with what it threw. */
  predicate Comes(execution: Execution, outcome: Outcome) {
    match execution.outcome
    case Ok(output) => outcome.output == output && !outcome.isError
    case Threw(reason) => IsError(outcome, reason)
  }

  /** A field that a patch replaces if it has it. */
  predicate Patched<T(==)>(own: T, patch: Option<T>, result: T) {
    result == if patch.Some? then patch.value else own
  }

  /** What `afterToolCall` makes of an outcome: an error if it throws, else the outcome with
      each field it answers replaced and each other field kept. */
  predicate Amended(answer: Result<Option<AfterResult>>, own: Outcome, outcome: Outcome) {
    match answer
    case Threw(reason) => IsError(outcome, reason)
    case Ok(None) => outcome == own
    case Ok(Some(patch)) =>
      && Patched(own.output.content, patch.content, outcome.output.content)
      && Patched(own.output.details, patch.details, outcome.output.details)
      && Patched(own.isError, patch.isError, outcome.isError)
      && outcome.output.terminate == (if patch.terminate.Some? then patch.terminate else own.output.terminate)
  }

  /** An admitted call runs once with its admitted arguments. It ends with what comes of that,
      which only `afterToolCall` can change. */
  lemma AdmittedOutcome(r: Request, slot: nat, tool: Tool, arguments: Json, own: Outcome)
    requires slot < |r.Calls()| && Admits(r, slot, tool, arguments)
    requires Comes(tool.execute(slot, r.Calls()[slot].id, arguments), own)
    ensures var call, plan := r.Calls()[slot], PlanCall(r, slot);
            && plan.runs && plan.call == call
            && plan.updates == tool.execute(slot, call.id, arguments).updates
            && plan.eager == tool.execute(slot, call.id, arguments).eager
            && (r.box.after.None? ==> plan.outcome == own)
            && (r.box.after.Some? ==>
                  var answer :=
                    r.box.after.value(slot, r.message, call, arguments, own.output, own.isError, r.context);
                  Amended(answer, own, plan.outcome))
  {
    PreparedIfAdmitted(r, slot, tool, arguments);
    hide Admits;
  }

  /** Why a call is refused, and what its error says: no such tool; arguments that cannot be
      adapted or are not valid; a hook that throws or objects, with or without a reason. */
  ghost predicate Refuses(r: Request, slot: nat, text: string)
    requires slot < |r.Calls()|
  {
    var call := r.Calls()[slot];
    || ((forall i | 0 <= i < |r.box.tools| :: r.box.tools[i].name != call.name)
        && text == "Tool " + call.name + " not found")
    || exists tool: Tool ::
         && FindTool(r.box.tools, call.name) == Some(tool)
         && (|| (tool.prepareArguments.Some? && tool.prepareArguments.value(call.arguments) == Threw(text))
             || exists adapted: Json ::
                  && (if tool.prepareArguments.Some? then tool.prepareArguments.value(call.arguments) == Ok(adapted)
                      else adapted == call.arguments)
                  && (tool.validate(adapted) == Threw(text) || HookRefuses(r, slot, tool, adapted, text)))
  }

  ghost predicate HookRefuses(r: Request, slot: nat, tool: Tool, adapted: Json, text: string)
    requires slot < |r.Calls()|
  {
    exists valid: Json ::
      && tool.validate(adapted) == Ok(valid)
      && r.box.before.Some?
      && match r.box.before.value(slot, r.message, r.Calls()[slot], valid, r.context)
         case Threw(reason) => text == reason
         case Ok(Block(reason)) => text == if reason != "" then reason else "Tool execution was blocked"
         case Ok(Proceed(_)) => false
  }

  /** A call that does not run ends at once with an error that says why. */
  lemma RefusedOutcome(r: Request, slot: nat)
    requires slot < |r.Calls()| && !PlanCall(r, slot).runs
    ensures exists text :: Refuses(r, slot, text) && IsError(PlanCall(r, slot).outcome, text)
  {
    var call, text := r.Calls()[slot], PlanCall(r, slot).outcome.output.content;
    FirstToolFound(r.box.tools, call.name);
    assert IsError(PlanCall(r, slot).outcome, text);
    if FindTool(r.box.tools, call.name).Some? {
      var tool := FindTool(r.box.tools, call.name).value;
      RefusedByTool(r, slot, tool);
    }
  }

  lemma RefusedByTool(r: Request, slot: nat, tool: Tool)
    requires slot < |r.Calls()| && !PlanCall(r, slot).runs
    requires FindTool(r.box.tools, r.Calls()[slot].name) == Some(tool)
    ensures Refuses(r, slot, PlanCall(r, slot).outcome.output.content)
  {
    var call, text := r.Calls()[slot], PlanCall(r, slot).outcome.output.content;
    match PrepareArguments(tool, call)
    case Threw(reason) =>
    case Ok(adapted) =>
      match tool.validate(adapted)
      case Threw(reason) =>
      case Ok(valid) =>
        assert HookRefuses(r, slot, tool, adapted, text);
  }

  // ----- What is told of a call

  /** The life of an admitted call, in both executors and under every schedule: its start, its
      execution, its tool's updates in order, and its end; then, in its place among the
      results, the message that carries its end to the model. */
  lemma CallReported(r: Request, slot: nat, tool: Tool, arguments: Json, schedule: seq<nat>)
    requires slot < |r.Calls()| && Admits(r, slot, tool, arguments)
    ensures var (call, b) := (r.Calls()[slot], PlanBatch(r));
            var trace, outcome := Project(BatchSteps(b, schedule), slot), PlanCall(r, slot).outcome;
            var updates := tool.execute(slot, call.id, arguments).updates;
            var results := Committed(BatchSteps(b, schedule));
            && |trace| == |updates| + 3
            && trace[0] == Emit(ToolStart(slot, call), r.context)
            && trace[1] == Execute(slot, call)
            && (forall i | 0 <= i < |updates| :: trace[i + 2] == Emit(ToolUpdate(slot, call, updates[i]), r.context))
            && trace[|updates| + 2] == Emit(ToolEnd(slot, call, outcome.output, outcome.isError), r.context)
            && |results| == |r.Calls()|
            && results[slot] ==
                 ToolResult(call.id, call.name, outcome.output.content, outcome.output.details, outcome.isError)
  {
    var b := PlanBatch(r);
    PlanBatchPlanned(r);
    PreparedIfAdmitted(r, slot, tool, arguments);
    EveryCallOnce(b, schedule, slot);
    ParallelRefinesSequential(b, schedule);
    hide Admits, Project, Committed, ParallelSteps, SequentialSteps, FindTool, PrepareArguments, Finish,
      RunsSequentially;
    assert b.plans[slot] == PlanCall(r, slot);
    TraceShape(b, slot);
  }

  lemma TraceShape(b: Batch, slot: nat)
    requires slot < |b.plans| && b.plans[slot].runs
    ensures var p := b.plans[slot];
            var trace := CallTrace(b, slot);
            && |trace| == |p.updates| + 3
            && trace[0] == Emit(ToolStart(slot, p.call), b.context)
            && trace[1] == Execute(slot, p.call)
            && (forall i | 0 <= i < |p.updates| ::
                trace[i + 2] == Emit(ToolUpdate(slot, p.call, p.updates[i]), b.context))
            && trace[|p.updates| + 2] == Emit(ToolEnd(slot, p.call, p.outcome.output, p.outcome.isError), b.context)
  {
    hide UpdateSteps;
    UpdatesAre(b, slot);
    Around(StartStep(b, slot), Execute(slot, b.plans[slot].call), UpdateSteps(b, slot), EndStep(b, slot));
  }

  lemma UpdatesAre(b: Batch, slot: nat)
    requires slot < |b.plans| && b.plans[slot].runs
    ensures var p := b.plans[slot];
            forall i | 0 <= i < |p.updates| ::
              UpdateSteps(b, slot)[i] == Emit(ToolUpdate(slot, p.call, p.updates[i]), b.context)
  {
  }

  lemma Around(first: Step, second: Step, middle: seq<Step>, last: Step)
    ensures var all := [first] + ([second] + middle + [last]);
            && |all| == |middle| + 3 && all[0] == first && all[1] == second && all[|middle| + 2] == last
            && forall i | 0 <= i < |middle| :: all[i + 2] == middle[i]
  {
  }

  /** A call that may not run is told of as well: its start, and at once its end. */
  lemma RefusalReported(r: Request, slot: nat, schedule: seq<nat>)
    requires slot < |r.Calls()| && !PlanCall(r, slot).runs
    ensures var (call, b) := (r.Calls()[slot], PlanBatch(r));
            var outcome := PlanCall(r, slot).outcome;
            var results := Committed(BatchSteps(b, schedule));
            && Project(BatchSteps(b, schedule), slot) ==
                 [Emit(ToolStart(slot, call), r.context),
                  Emit(ToolEnd(slot, call, outcome.output, outcome.isError), r.context)]
            && |results| == |r.Calls()|
            && results[slot] ==
                 ToolResult(call.id, call.name, outcome.output.content, outcome.output.details, outcome.isError)
  {
    var b := PlanBatch(r);
    PlanBatchPlanned(r);
    EveryCallOnce(b, schedule, slot);
    ParallelRefinesSequential(b, schedule);
    hide Project, Committed, ParallelSteps, SequentialSteps, FindTool, PrepareArguments, Finish, RunsSequentially;
    assert b.plans[slot] == PlanCall(r, slot);
  }

  // ----- Which executor runs a batch

  /** Tool `k` is the first with the name of call `slot`, and is marked sequential. */
  ghost predicate NamesSequential(r: Request, slot: nat, k: nat) {
    && slot < |r.Calls()| && k < |r.box.tools|
    && r.box.tools[k].name == r.Calls()[slot].name && r.box.tools[k].mode == Some(Sequential)
    && forall j | 0 <= j < k :: r.box.tools[j].name != r.Calls()[slot].name
  }

  lemma {:induction false} FirstIsFound(tools: seq<Tool>, name: string, k: nat)
    requires k < |tools| && tools[k].name == name && forall j | 0 <= j < k :: tools[j].name != name
    ensures FindTool(tools, name) == Some(tools[k])
  {
    if k > 0 {
      FirstIsFound(tools[1..], name, k - 1);
    }
  }

  /** A batch runs one call at a time if it is configured so, or if one of its calls names a
      tool marked sequential; otherwise its calls run concurrently. */
  lemma ExecutorChosen(r: Request, schedule: seq<nat>)
    ensures var b := PlanBatch(r);
            BatchSteps(b, schedule) ==
              if r.box.mode == Sequential || exists slot: nat, k: nat :: NamesSequential(r, slot, k)
              then SequentialSteps(b) else ParallelSteps(b, schedule)
  {
    hide SequentialSteps, ParallelSteps, Plan;
    if slot: nat, k: nat :| NamesSequential(r, slot, k) {
      FirstIsFound(r.box.tools, r.Calls()[slot].name, k);
    }
    if i: nat :| i < |r.Calls()| && var tool := FindTool(r.box.tools, r.Calls()[i].name);
                                     tool.Some? && tool.value.mode == Some(Sequential) {
      FirstToolFound(r.box.tools, r.Calls()[i].name);
      var k: nat :| k < |r.box.tools| && FindTool(r.box.tools, r.Calls()[i].name) == Some(r.box.tools[k]) &&
                    r.box.tools[k].name == r.Calls()[i].name &&
                    forall j | 0 <= j < k :: r.box.tools[j].name != r.Calls()[i].name;
      assert NamesSequential(r, i, k);
    }
  }

  // ----- The order of sequential execution

  lemma {:induction false} FlatPrefix(blocks: seq<seq<Step>>, n: nat, i: nat) returns (block: nat, at: nat)
    requires n <= |blocks| && i < |Flatten(blocks, n)|
    ensures block < n && at < |blocks[block]| && Flatten(blocks, n)[i] == blocks[block][at]
    ensures Flatten(blocks, n)[..i] == Flatten(blocks, block) + blocks[block][..at]
    decreases n
  {
    var before := |Flatten(blocks, n - 1)|;
    if i < before {
      block, at := FlatPrefix(blocks, n - 1, i);
      assert Flatten(blocks, n)[..i] == Flatten(blocks, n - 1)[..i];
    } else {
      block, at := n - 1, i - before;
    }
  }

  /** Sequential execution: whenever anything happens of a call, the results of the calls
      before it, and no others, are already committed. */
  lemma SequentialOrder(b: Batch, slot: nat, i: nat)
    requires i < |SequentialSteps(b)| && Concerns(SequentialSteps(b)[i], slot)
    ensures slot < |b.plans| && Committed(SequentialSteps(b)[..i]) == Results(b, slot)
  {
    var block, at := FlatPrefix(SequentialBlocks(b), |b.plans|, i);
    InsideBlock(b, block, at, slot);
    forall k | 0 <= k < block ensures Committed(SequentialBlocks(b)[k]) == [ResultMessage(b.plans[k])] {
      BlockCommitted(b, k);
    }
    FlatCommitted(SequentialBlocks(b), b, block);
    CommittedAppend(Flatten(SequentialBlocks(b), block), SequentialBlock(b, block)[..at]);
    hide *;
  }

  lemma InsideBlock(b: Batch, block: nat, at: nat, slot: nat)
    requires block < |b.plans| && at < |SequentialBlock(b, block)|
    requires Concerns(SequentialBlock(b, block)[at], slot)
    ensures slot == block && Committed(SequentialBlock(b, block)[..at]) == []
  {
    var trace, report := CallTrace(b, block), ResultSteps(b, block);
    assert SequentialBlock(b, block) == trace + report;
    CallTraceConcerns(b, block, slot);
    CallTraceConcerns(b, block, block);
    forall k | |trace| <= k < |trace + report| ensures !Concerns((trace + report)[k], slot) {
      assert (trace + report)[k] == report[k - |trace|];
    }
    var front := SequentialBlock(b, block)[..at];
    forall k | 0 <= k < |front| ensures !Reporting(front[k]) {
      assert front[k] == trace[k] && Concerns(trace[k], block);
    }
    NothingCommitted(front);
  }

  // ----- How far a launch takes a call

  lemma ProjectLaunch(b: Batch, block: nat, slot: nat)
    requires block < |b.plans|
    ensures Project(LaunchBlock(b, block), slot) == if block == slot then LaunchBlock(b, block) else []
  {
    var launch := LaunchBlock(b, block);
    CallTraceConcerns(b, block, slot);
    forall i | 0 <= i < |launch| ensures Concerns(launch[i], slot) <==> block == slot {
      assert launch[i] == TaskSteps(b, block)[i];
    }
    if block == slot {
      ProjectAll(launch, slot);
    } else {
      ProjectNone(launch, slot);
    }
  }

  lemma ProjectLaunches(b: Batch, n: nat, slot: nat)
    requires slot < n <= |b.plans|
    ensures Project(Flatten(LaunchBlocks(b), n), slot) == LaunchBlock(b, slot)
  {
    forall i | 0 <= i < n ensures Project(LaunchBlocks(b)[i], slot) == if i == slot then LaunchBlock(b, i) else [] {
      ProjectLaunch(b, i, slot);
    }
    ProjectFlat(LaunchBlocks(b), n, slot);
  }

  lemma {:induction false} FlattenFront(blocks: seq<seq<Step>>, n: nat, m: nat)
    requires n < m <= |blocks|
    ensures Flatten(blocks, n) + blocks[n] <= Flatten(blocks, m)
    decreases m
  {
    if n < m - 1 {
      FlattenFront(blocks, n, m - 1);
    }
  }

  /** How many steps of its life a call has behind it once it is launched: its start, its
      execution, and the updates its tool sends at once; or its start and its end. */
  function LaunchedSteps(b: Batch, slot: nat): (n: nat)
    requires slot < |b.plans|
    ensures n <= |CallTrace(b, slot)|
  {
    var plan := b.plans[slot];
    if !plan.runs then 2
    else if plan.eager <= |plan.updates| then plan.eager + 2
    else |plan.updates| + 2
  }

  /** Parallel execution: when a tool is launched, each call before it is launched, no less
      and no further. */
  lemma LaunchedBefore(b: Batch, schedule: seq<nat>, slot: nat) returns (at: nat)
    requires slot < |b.plans| && b.plans[slot].runs
    ensures at < |ParallelSteps(b, schedule)| && ParallelSteps(b, schedule)[at] == Execute(slot, b.plans[slot].call)
    ensures forall i: nat | i < slot ::
      Project(ParallelSteps(b, schedule)[..at], i) == CallTrace(b, i)[..LaunchedSteps(b, i)]
  {
    var n := |b.plans|;
    var prepare, front := Flatten(PrepareBlocks(b), n), Flatten(LaunchBlocks(b), slot);
    FlattenFront(LaunchBlocks(b), slot, n);
    at := |prepare + front|;
    Fronts(prepare, front, LaunchBlock(b, slot), Flatten(LaunchBlocks(b), n), Shuffle(Launched(b), schedule),
           Flatten(ReportBlocks(b), n));
    forall i: nat | i < slot
      ensures Project(ParallelSteps(b, schedule)[..at], i) == CallTrace(b, i)[..LaunchedSteps(b, i)]
    {
      ProjectPrepare(b, i);
      ProjectLaunches(b, slot, i);
      ProjectAppend(prepare, front, i);
      LaunchedFront(b, i);
    }
  }

  lemma Fronts(prepare: seq<Step>, front: seq<Step>, block: seq<Step>, launch: seq<Step>, work: seq<Step>,
               report: seq<Step>)
    requires front + block <= launch && block != []
    ensures var all := prepare + (launch + work) + report;
            var at := |prepare + front|;
            at < |all| && all[..at] == prepare + front && all[at] == block[0]
  {
    assert launch == front + block + launch[|front + block|..];
  }

  lemma LaunchedFront(b: Batch, slot: nat)
    requires slot < |b.plans|
    ensures PrepareBlock(b, slot) + LaunchBlock(b, slot) == CallTrace(b, slot)[..LaunchedSteps(b, slot)]
  {
    hide StartStep, EndStep, UpdateSteps;
  }

  // ----- The tools of a turn

  /** A turn that does not fail runs the calls of its answer with the tools and hooks of the
      turn, against everything up to and including that answer, and its results are what that
      commits. */
  lemma TurnRunsTools(asked: seq<Message>, t: TurnInput)
    requires Starts(t.response.events) <= 1 && !Failing(Assistant(t.response.final))
    ensures var r := Request(t.box, asked + [Assistant(t.response.final)], t.response.final);
            && ActSteps(asked, t) == (if r.Calls() == [] then [] else BatchSteps(PlanBatch(r), t.schedule))
            && TurnResults(asked, t) == Committed(ActSteps(asked, t))
  {
    ContextAfterStream(asked, false, t.response);
    var b := TurnBatch(asked, t);
    ParallelRefinesSequential(b, t.schedule);
    hide ParallelSteps, SequentialSteps, RunsSequentially;
    if b.plans == [] {
      assert TurnResults(asked, t) == [];
    }
  }
}
