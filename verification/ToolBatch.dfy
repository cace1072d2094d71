/** The steps the sequential and the parallel executor take over a batch of tool calls. */
module ToolBatch {
  import opened Messages
  import opened Tools

  /** A batch of calls, each with its plan, run against one transcript. */
  datatype Batch = Batch(context: seq<Message>, plans: seq<CallPlan>, sequential: bool) {
    function Calls(): (calls: seq<ToolCall>)
      ensures |calls| == |plans|
      ensures forall i :: 0 <= i < |calls| ==> calls[i] == plans[i].call
    {
      seq(|plans|, i requires 0 <= i < |plans| => plans[i].call)
    }
  }

  function PlanBatch(r: Request): Batch {
    Batch(r.context, Plan(r, |r.Calls()|), RunsSequentially(r))
  }

  /** `b` is the plan of the request, call by call. */
  ghost predicate Planned(r: Request, b: Batch) {
    && b.context == r.context
    && |b.plans| == |r.Calls()|
    && (forall i | 0 <= i < |b.plans| :: b.plans[i].call == r.Calls()[i])
    && (forall i: nat {:trigger PlanCall(r, i)} | i < |b.plans| :: b.plans[i] == PlanCall(r, i))
  }

  lemma PlanBatchPlanned(r: Request)
    ensures Planned(r, PlanBatch(r)) && PlanBatch(r).Calls() == r.Calls()
  {
  }

  function ResultMessage(p: CallPlan): Message {
    ToolResultMessage(p.call, p.outcome)
  }

  /** The tool-result messages of the first `n` calls, in source order. */
  function Results(b: Batch, n: nat): (results: seq<Message>)
    requires n <= |b.plans|
    ensures |results| == n
    ensures forall i :: 0 <= i < n ==> results[i] == ResultMessage(b.plans[i])
  {
    seq(n, i requires 0 <= i < n => ResultMessage(b.plans[i]))
  }

  lemma ResultsGrow(b: Batch, n: nat)
    requires n < |b.plans|
    ensures Results(b, n + 1) == Results(b, n) + [ResultMessage(b.plans[n])]
  {
  }

  function AllResults(b: Batch): seq<Message> {
    Results(b, |b.plans|)
  }

  predicate Terminates(b: Batch) {
    |b.plans| > 0 && forall i | 0 <= i < |b.plans| :: b.plans[i].outcome.output.terminate == Some(true)
  }

  // ----- Steps of one call

  function StartStep(b: Batch, slot: nat): Step
    requires slot < |b.plans|
  {
    Emit(ToolStart(slot, b.plans[slot].call), b.context)
  }

  function EndStep(b: Batch, slot: nat): Step
    requires slot < |b.plans|
  {
    var p := b.plans[slot];
    Emit(ToolEnd(slot, p.call, p.outcome.output, p.outcome.isError), b.context)
  }

  function UpdateSteps(b: Batch, slot: nat): (steps: seq<Step>)
    requires slot < |b.plans| && b.plans[slot].runs
    ensures |steps| == |b.plans[slot].updates|
  {
    var updates := b.plans[slot].updates;
    seq(|updates|, i requires 0 <= i < |updates| => Emit(ToolUpdate(slot, b.plans[slot].call, updates[i]), b.context))
  }

  /** What a prepared call does once it is let run. */
  function TaskSteps(b: Batch, slot: nat): (steps: seq<Step>)
    requires slot < |b.plans| && b.plans[slot].runs
    ensures |steps| == |b.plans[slot].updates| + 2
  {
    [Execute(slot, b.plans[slot].call)] + UpdateSteps(b, slot) + [EndStep(b, slot)]
  }

  function ResultSteps(b: Batch, slot: nat): (steps: seq<Step>)
    requires slot < |b.plans|
    ensures |steps| == 2
  {
    var m := ResultMessage(b.plans[slot]);
    [Emit(MessageStart(m), b.context), Emit(MessageEnd(m), b.context)]
  }

  // ----- Steps of a batch

  function SequentialBlock(b: Batch, slot: nat): seq<Step>
    requires slot < |b.plans|
  {
    [StartStep(b, slot)] +
    (if b.plans[slot].runs then TaskSteps(b, slot) else [EndStep(b, slot)]) +
    ResultSteps(b, slot)
  }

  function PrepareBlock(b: Batch, slot: nat): seq<Step>
    requires slot < |b.plans|
  {
    [StartStep(b, slot)] + if b.plans[slot].runs then [] else [EndStep(b, slot)]
  }

  /** The first `n` blocks, one after the other. */
  function Flatten(blocks: seq<seq<Step>>, n: nat): seq<Step>
    requires n <= |blocks|
  {
    if n == 0 then [] else Flatten(blocks, n - 1) + blocks[n - 1]
  }

  lemma FlattenNext(blocks: seq<seq<Step>>, n: nat)
    requires 0 < n <= |blocks|
    ensures Flatten(blocks, n) == Flatten(blocks, n - 1) + blocks[n - 1]
  {
  }

  function SequentialBlocks(b: Batch): (blocks: seq<seq<Step>>)
    ensures |blocks| == |b.plans|
    ensures forall i: nat {:trigger SequentialBlock(b, i)} | i < |blocks| :: blocks[i] == SequentialBlock(b, i)
  {
    seq(|b.plans|, i requires 0 <= i < |b.plans| => SequentialBlock(b, i))
  }

  function PrepareBlocks(b: Batch): (blocks: seq<seq<Step>>)
    ensures |blocks| == |b.plans|
    ensures forall i: nat {:trigger PrepareBlock(b, i)} | i < |blocks| :: blocks[i] == PrepareBlock(b, i)
  {
    seq(|b.plans|, i requires 0 <= i < |b.plans| => PrepareBlock(b, i))
  }

  function ReportBlocks(b: Batch): (blocks: seq<seq<Step>>)
    ensures |blocks| == |b.plans|
    ensures forall i: nat {:trigger ResultSteps(b, i)} | i < |blocks| :: blocks[i] == ResultSteps(b, i)
  {
    seq(|b.plans|, i requires 0 <= i < |b.plans| => ResultSteps(b, i))
  }

  function SequentialSteps(b: Batch): seq<Step> {
    Flatten(SequentialBlocks(b), |b.plans|)
  }

  /** What a prepared call does when it is launched: it executes, and sends what its tool
      sends at once. */
  function LaunchBlock(b: Batch, slot: nat): seq<Step>
    requires slot < |b.plans|
  {
    if b.plans[slot].runs then TaskSteps(b, slot)[..LaunchLength(b, slot)] else []
  }

  function LaunchLength(b: Batch, slot: nat): (n: nat)
    requires slot < |b.plans|
    ensures 0 < n <= |b.plans[slot].updates| + 1
  {
    1 + AtOnce(b.plans[slot].updates, b.plans[slot].eager)
  }

  function LaunchBlocks(b: Batch): (blocks: seq<seq<Step>>)
    ensures |blocks| == |b.plans|
    ensures forall i: nat {:trigger LaunchBlock(b, i)} | i < |blocks| :: blocks[i] == LaunchBlock(b, i)
  {
    seq(|b.plans|, i requires 0 <= i < |b.plans| => LaunchBlock(b, i))
  }

  /** What is left to do for every call once all of them are prepared. */
  function Tasks(b: Batch): (tasks: seq<seq<Step>>)
    ensures |tasks| == |b.plans|
    ensures forall i :: 0 <= i < |tasks| ==>
      tasks[i] == if b.plans[i].runs then TaskSteps(b, i) else []
  {
    seq(|b.plans|, i requires 0 <= i < |b.plans| => if b.plans[i].runs then TaskSteps(b, i) else [])
  }

  /** What is left to do for every call once the prepared ones are launched. */
  function Launched(b: Batch): (tasks: seq<seq<Step>>)
    ensures |tasks| == |b.plans|
    ensures forall i :: 0 <= i < |tasks| ==>
      tasks[i] == if b.plans[i].runs then TaskSteps(b, i)[LaunchLength(b, i)..] else []
  {
    seq(|b.plans|, i requires 0 <= i < |b.plans| =>
      if b.plans[i].runs then TaskSteps(b, i)[LaunchLength(b, i)..] else [])
  }

  predicate Exhausted(tasks: seq<seq<Step>>) {
    forall i | 0 <= i < |tasks| :: tasks[i] == []
  }

  function TotalLength(tasks: seq<seq<Step>>): nat {
    if tasks == [] then 0 else |tasks[0]| + TotalLength(tasks[1..])
  }

  /** The call that moves next: the one the schedule names, or else the first busy one. */
  function Pick(tasks: seq<seq<Step>>, schedule: seq<nat>): (slot: nat)
    requires !Exhausted(tasks)
    ensures slot < |tasks| && tasks[slot] != []
  {
    if schedule != [] && schedule[0] < |tasks| && tasks[schedule[0]] != [] then schedule[0]
    else FirstBusy(tasks, 0)
  }

  function FirstBusy(tasks: seq<seq<Step>>, from: nat): (slot: nat)
    requires from < |tasks|
    requires exists i :: from <= i < |tasks| && tasks[i] != []
    ensures slot < |tasks| && tasks[slot] != []
    decreases |tasks| - from
  {
    if tasks[from] != [] then from else FirstBusy(tasks, from + 1)
  }

  function Advance(tasks: seq<seq<Step>>, slot: nat): seq<seq<Step>>
    requires slot < |tasks| && tasks[slot] != []
  {
    tasks[slot := tasks[slot][1..]]
  }

  lemma {:induction false} AdvanceShrinks(tasks: seq<seq<Step>>, slot: nat)
    requires slot < |tasks| && tasks[slot] != []
    ensures TotalLength(Advance(tasks, slot)) == TotalLength(tasks) - 1
  {
    if slot == 0 {
      assert Advance(tasks, slot)[1..] == tasks[1..];
    } else {
      AdvanceShrinks(tasks[1..], slot - 1);
      assert Advance(tasks, slot)[1..] == Advance(tasks[1..], slot - 1);
    }
  }

  /** The tasks run concurrently: `schedule` says which of them takes each next step. */
  function Shuffle(tasks: seq<seq<Step>>, schedule: seq<nat>): seq<Step>
    decreases TotalLength(tasks)
  {
    if Exhausted(tasks) then []
    else
      var slot := Pick(tasks, schedule);
      AdvanceShrinks(tasks, slot);
      [tasks[slot][0]] + Shuffle(Advance(tasks, slot), if schedule == [] then [] else schedule[1..])
  }

  /** The prepared calls are launched in source order; from then on they run concurrently. */
  function ConcurrentSteps(b: Batch, schedule: seq<nat>): seq<Step> {
    Flatten(LaunchBlocks(b), |b.plans|) + Shuffle(Launched(b), schedule)
  }

  function ParallelSteps(b: Batch, schedule: seq<nat>): seq<Step> {
    Flatten(PrepareBlocks(b), |b.plans|) + ConcurrentSteps(b, schedule) + Flatten(ReportBlocks(b), |b.plans|)
  }

  // ----- Launching is one way to schedule

  function Times(slot: nat, n: nat): (schedule: seq<nat>)
    ensures |schedule| == n
  {
    if n == 0 then [] else [slot] + Times(slot, n - 1)
  }

  /** A schedule that names one task `n` times runs it ahead by `n` steps. */
  lemma {:induction false} RunsAhead(tasks: seq<seq<Step>>, slot: nat, n: nat, schedule: seq<nat>)
    requires slot < |tasks| && n <= |tasks[slot]|
    ensures Shuffle(tasks, Times(slot, n) + schedule) ==
            tasks[slot][..n] + Shuffle(tasks[slot := tasks[slot][n..]], schedule)
    decreases n
  {
    if n == 0 {
      assert Times(slot, 0) + schedule == schedule;
      assert tasks[slot := tasks[slot][0..]] == tasks;
    } else {
      OneAhead(tasks, slot, n, schedule);
      hide Shuffle, Times, Pick, Exhausted;
      var next := Advance(tasks, slot);
      RunsAhead(next, slot, n - 1, schedule);
      assert next[slot := next[slot][n - 1..]] == tasks[slot := tasks[slot][n..]];
      assert tasks[slot][..n] == [tasks[slot][0]] + next[slot][..n - 1];
    }
  }

  lemma OneAhead(tasks: seq<seq<Step>>, slot: nat, n: nat, schedule: seq<nat>)
    requires slot < |tasks| && 0 < n <= |tasks[slot]|
    ensures Shuffle(tasks, Times(slot, n) + schedule) ==
            [tasks[slot][0]] + Shuffle(Advance(tasks, slot), Times(slot, n - 1) + schedule)
  {
    var whole := Times(slot, n) + schedule;
    assert whole[0] == slot && whole[1..] == Times(slot, n - 1) + schedule;
    assert Pick(tasks, whole) == slot;
    AdvanceShrinks(tasks, slot);
  }

  /** The tasks once the first `n` calls are launched. */
  function LaunchedUpTo(b: Batch, n: nat): seq<seq<Step>>
    requires n <= |b.plans|
  {
    Launched(b)[..n] + Tasks(b)[n..]
  }

  lemma {:induction false} LaunchesUpTo(b: Batch, n: nat, schedule: seq<nat>) returns (whole: seq<nat>)
    requires n <= |b.plans|
    ensures Flatten(LaunchBlocks(b), n) + Shuffle(LaunchedUpTo(b, n), schedule) == Shuffle(Tasks(b), whole)
    decreases n
  {
    hide Shuffle, Flatten, LaunchBlock, LaunchLength, TaskSteps, Times;
    if n == 0 {
      NoneLaunched(b);
      whole := schedule;
    } else {
      var slot := n - 1;
      var later := LaunchNext(b, slot, schedule);
      whole := LaunchesUpTo(b, slot, later);
      FlattenNext(LaunchBlocks(b), n);
    }
  }

  lemma NoneLaunched(b: Batch)
    ensures Flatten(LaunchBlocks(b), 0) == [] && LaunchedUpTo(b, 0) == Tasks(b)
  {
  }

  lemma LaunchNext(b: Batch, slot: nat, schedule: seq<nat>) returns (whole: seq<nat>)
    requires slot < |b.plans|
    ensures Shuffle(LaunchedUpTo(b, slot), whole) == LaunchBlock(b, slot) + Shuffle(LaunchedUpTo(b, slot + 1), schedule)
  {
    hide Shuffle, Tasks, Launched, LaunchLength;
    LaunchAdvances(b, slot);
    if b.plans[slot].runs {
      var n := LaunchLength(b, slot);
      RunsAhead(LaunchedUpTo(b, slot), slot, n, schedule);
      whole := Times(slot, n) + schedule;
    } else {
      whole := schedule;
    }
  }

  lemma LaunchAdvances(b: Batch, slot: nat)
    requires slot < |b.plans|
    ensures var before, after := LaunchedUpTo(b, slot), LaunchedUpTo(b, slot + 1);
            if b.plans[slot].runs then
              && before[slot] == TaskSteps(b, slot)
              && after == before[slot := before[slot][LaunchLength(b, slot)..]]
            else after == before
  {
    hide TaskSteps, LaunchLength;
  }

  /** Launching in source order and then following a schedule is following one schedule of
      the whole tasks. */
  lemma LaunchingIsScheduled(b: Batch, schedule: seq<nat>) returns (whole: seq<nat>)
    ensures ConcurrentSteps(b, schedule) == Shuffle(Tasks(b), whole)
  {
    hide Flatten, Shuffle, LaunchedUpTo, LaunchBlocks, Launched, Tasks;
    AllLaunched(b);
    whole := LaunchesUpTo(b, |b.plans|, schedule);
  }

  lemma AllLaunched(b: Batch)
    ensures LaunchedUpTo(b, |b.plans|) == Launched(b)
  {
    hide Tasks, Launched;
  }

  function BatchSteps(b: Batch, schedule: seq<nat>): seq<Step> {
    if b.sequential then SequentialSteps(b) else ParallelSteps(b, schedule)
  }
}
