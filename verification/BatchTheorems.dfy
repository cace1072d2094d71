/** What the two executors have in common, and what the parallel one guarantees on its own. */
module BatchTheorems {
  import opened Messages
  import opened Reducer
  import opened Tools
  import opened ToolBatch

  // ----- Schedules are exactly the interleavings

  /** `steps` interleaves the tasks: each next step is the first one left of some task. */
  ghost predicate Interleaves(steps: seq<Step>, tasks: seq<seq<Step>>)
    decreases |steps|
  {
    if steps == [] then Exhausted(tasks)
    else exists slot: nat | slot < |tasks| && tasks[slot] != [] ::
           steps[0] == tasks[slot][0] && Interleaves(steps[1..], Advance(tasks, slot))
  }

  lemma {:induction false} ShuffleInterleaves(tasks: seq<seq<Step>>, schedule: seq<nat>)
    ensures Interleaves(Shuffle(tasks, schedule), tasks)
    decreases TotalLength(tasks)
  {
    if !Exhausted(tasks) {
      var slot := Pick(tasks, schedule);
      AdvanceShrinks(tasks, slot);
      var later := if schedule == [] then [] else schedule[1..];
      ShuffleInterleaves(Advance(tasks, slot), later);
      assert Shuffle(tasks, schedule)[1..] == Shuffle(Advance(tasks, slot), later);
    }
  }

  lemma {:induction false} InterleavingHasSchedule(steps: seq<Step>, tasks: seq<seq<Step>>) returns (schedule: seq<nat>)
    requires Interleaves(steps, tasks)
    ensures Shuffle(tasks, schedule) == steps
    decreases |steps|
  {
    if steps == [] {
      schedule := [];
    } else {
      var slot: nat :| slot < |tasks| && tasks[slot] != [] &&
                       steps[0] == tasks[slot][0] && Interleaves(steps[1..], Advance(tasks, slot));
      var later := InterleavingHasSchedule(steps[1..], Advance(tasks, slot));
      schedule := [slot] + later;
      assert schedule[1..] == later;
      assert steps == [steps[0]] + steps[1..];
    }
  }

  /** `steps` launches the prepared calls one after the other in source order, and then
      interleaves what is left of them. */
  ghost predicate LaunchesThenInterleaves(steps: seq<Step>, b: Batch) {
    var launch := Flatten(LaunchBlocks(b), |b.plans|);
    launch <= steps && Interleaves(steps[|launch|..], Launched(b))
  }

  /** The schedules of the model are all the ways concurrent tools can interleave once they
      are launched, and no more; each is an interleaving of the whole calls. */
  lemma SchedulesAreInterleavings(steps: seq<Step>, b: Batch)
    ensures LaunchesThenInterleaves(steps, b) <==> exists schedule :: ConcurrentSteps(b, schedule) == steps
    ensures LaunchesThenInterleaves(steps, b) ==> Interleaves(steps, Tasks(b))
  {
    hide *;
    if LaunchesThenInterleaves(steps, b) {
      var schedule := LaunchHasSchedule(steps, b);
      var whole := LaunchingIsScheduled(b, schedule);
      ShuffleInterleaves(Tasks(b), whole);
    }
    if exists schedule :: ConcurrentSteps(b, schedule) == steps {
      var schedule :| ConcurrentSteps(b, schedule) == steps;
      ConcurrentInterleaves(b, schedule);
    }
  }

  lemma LaunchHasSchedule(steps: seq<Step>, b: Batch) returns (schedule: seq<nat>)
    requires LaunchesThenInterleaves(steps, b)
    ensures ConcurrentSteps(b, schedule) == steps
  {
    hide Flatten, Shuffle, Launched, LaunchBlocks;
    var launch := Flatten(LaunchBlocks(b), |b.plans|);
    schedule := InterleavingHasSchedule(steps[|launch|..], Launched(b));
  }

  lemma ConcurrentInterleaves(b: Batch, schedule: seq<nat>)
    ensures LaunchesThenInterleaves(ConcurrentSteps(b, schedule), b)
  {
    hide Flatten, Shuffle, Launched, LaunchBlocks, Interleaves;
    var launch := Flatten(LaunchBlocks(b), |b.plans|);
    ShuffleInterleaves(Launched(b), schedule);
    assert ConcurrentSteps(b, schedule)[|launch|..] == Shuffle(Launched(b), schedule);
  }

  // ----- One call's view of a batch

  predicate Concerns(step: Step, slot: nat) {
    match step
    case Execute(s, _) => s == slot
    case Emit(ToolStart(s, _), _) => s == slot
    case Emit(ToolUpdate(s, _, _), _) => s == slot
    case Emit(ToolEnd(s, _, _, _), _) => s == slot
    case _ => false
  }

  function Project(steps: seq<Step>, slot: nat): seq<Step> {
    if steps == [] then [] else Own(steps[0], slot) + Project(steps[1..], slot)
  }

  function Own(step: Step, slot: nat): seq<Step> {
    if Concerns(step, slot) then [step] else []
  }

  lemma {:induction false} ProjectAppend(a: seq<Step>, b: seq<Step>, slot: nat)
    ensures Project(a + b, slot) == Project(a, slot) + Project(b, slot)
  {
    hide Own;
    if a == [] {
      assert a + b == b;
    } else {
      assert (a + b)[1..] == a[1..] + b && (a + b)[0] == a[0];
      ProjectAppend(a[1..], b, slot);
    }
  }

  lemma {:induction false} ProjectAll(steps: seq<Step>, slot: nat)
    requires forall i | 0 <= i < |steps| :: Concerns(steps[i], slot)
    ensures Project(steps, slot) == steps
  {
    if steps != [] {
      ProjectAll(steps[1..], slot);
    }
  }

  lemma {:induction false} ProjectNone(steps: seq<Step>, slot: nat)
    requires forall i | 0 <= i < |steps| :: !Concerns(steps[i], slot)
    ensures Project(steps, slot) == []
  {
    if steps != [] {
      ProjectNone(steps[1..], slot);
    }
  }

  /** The whole life of one call: one start, then for a prepared call its execution with
      its updates, then one end. */
  function CallTrace(b: Batch, slot: nat): seq<Step>
    requires slot < |b.plans|
  {
    [StartStep(b, slot)] + if b.plans[slot].runs then TaskSteps(b, slot) else [EndStep(b, slot)]
  }

  lemma CallTraceConcerns(b: Batch, slot: nat, other: nat)
    requires slot < |b.plans|
    ensures forall i | 0 <= i < |CallTrace(b, slot)| :: Concerns(CallTrace(b, slot)[i], other) <==> slot == other
    ensures b.plans[slot].runs ==>
      forall i | 0 <= i < |TaskSteps(b, slot)| :: Concerns(TaskSteps(b, slot)[i], other) <==> slot == other
  {
    if b.plans[slot].runs {
      forall i | 0 <= i < |TaskSteps(b, slot)|
        ensures Concerns(TaskSteps(b, slot)[i], other) <==> slot == other
      {
        if 0 < i < |TaskSteps(b, slot)| - 1 {
          assert TaskSteps(b, slot)[i] == UpdateSteps(b, slot)[i - 1];
        }
      }
    }
  }

  lemma {:induction false} ProjectFlatNone(blocks: seq<seq<Step>>, n: nat, slot: nat)
    requires n <= |blocks|
    requires forall i | 0 <= i < n :: Project(blocks[i], slot) == []
    ensures Project(Flatten(blocks, n), slot) == []
    decreases n
  {
    hide Project;
    if n == 0 {
      ProjectNone([], slot);
    } else {
      ProjectFlatNone(blocks, n - 1, slot);
      ProjectAppend(Flatten(blocks, n - 1), blocks[n - 1], slot);
    }
  }

  lemma {:induction false} ProjectFlat(blocks: seq<seq<Step>>, n: nat, slot: nat)
    requires slot < n <= |blocks|
    requires forall i | 0 <= i < n && i != slot :: Project(blocks[i], slot) == []
    ensures Project(Flatten(blocks, n), slot) == Project(blocks[slot], slot)
    decreases n
  {
    hide Project, Flatten;
    FlattenNext(blocks, n);
    ProjectAppend(Flatten(blocks, n - 1), blocks[n - 1], slot);
    if slot < n - 1 {
      ProjectFlat(blocks, n - 1, slot);
    } else {
      ProjectFlatNone(blocks, n - 1, slot);
    }
  }

  lemma ProjectBlock(b: Batch, slot: nat, other: nat)
    requires slot < |b.plans|
    ensures Project(SequentialBlock(b, slot), other) == if slot == other then CallTrace(b, slot) else []
  {
    var call, report := CallTrace(b, slot), ResultSteps(b, slot);
    CallTraceConcerns(b, slot, other);
    if slot == other {
      ProjectAll(call, other);
    } else {
      ProjectNone(call, other);
    }
    ProjectNone(report, other);
    ProjectAppend(call, report, other);
    assert SequentialBlock(b, slot) == call + report;
  }

  lemma ProjectSequential(b: Batch, slot: nat)
    requires slot < |b.plans|
    ensures Project(SequentialSteps(b), slot) == CallTrace(b, slot)
  {
    forall i | 0 <= i < |b.plans|
      ensures Project(SequentialBlocks(b)[i], slot) == if i == slot then CallTrace(b, i) else []
    {
      ProjectBlock(b, i, slot);
    }
    ProjectFlat(SequentialBlocks(b), |b.plans|, slot);
  }

  lemma ProjectPrepareBlock(b: Batch, slot: nat, other: nat)
    requires slot < |b.plans|
    ensures Project(PrepareBlock(b, slot), other) == if slot == other then PrepareBlock(b, slot) else []
  {
    if slot == other {
      ProjectAll(PrepareBlock(b, slot), other);
    } else {
      ProjectNone(PrepareBlock(b, slot), other);
    }
  }

  lemma ProjectPrepare(b: Batch, slot: nat)
    requires slot < |b.plans|
    ensures Project(Flatten(PrepareBlocks(b), |b.plans|), slot) == PrepareBlock(b, slot)
  {
    forall i | 0 <= i < |b.plans|
      ensures Project(PrepareBlocks(b)[i], slot) == if i == slot then PrepareBlock(b, i) else []
    {
      ProjectPrepareBlock(b, i, slot);
    }
    ProjectFlat(PrepareBlocks(b), |b.plans|, slot);
  }

  lemma ProjectReports(b: Batch, slot: nat)
    ensures Project(Flatten(ReportBlocks(b), |b.plans|), slot) == []
  {
    forall i | 0 <= i < |b.plans| ensures Project(ReportBlocks(b)[i], slot) == [] {
      ProjectNone(ReportBlocks(b)[i], slot);
    }
    ProjectFlatNone(ReportBlocks(b), |b.plans|, slot);
  }

  ghost predicate Owned(tasks: seq<seq<Step>>) {
    forall slot: nat, i, other: nat | slot < |tasks| && 0 <= i < |tasks[slot]| ::
      Concerns(tasks[slot][i], other) <==> slot == other
  }

  lemma {:induction false} ProjectShuffle(tasks: seq<seq<Step>>, schedule: seq<nat>, slot: nat)
    requires Owned(tasks) && slot < |tasks|
    ensures Project(Shuffle(tasks, schedule), slot) == tasks[slot]
    decreases TotalLength(tasks)
  {
    if !Exhausted(tasks) {
      var picked := Pick(tasks, schedule);
      AdvanceShrinks(tasks, picked);
      var later := if schedule == [] then [] else schedule[1..];
      var next := Advance(tasks, picked);
      ProjectShuffle(next, later, slot);
      assert Shuffle(tasks, schedule)[1..] == Shuffle(next, later);
      assert Concerns(tasks[picked][0], slot) <==> picked == slot;
    }
  }

  lemma TasksOwned(b: Batch)
    ensures Owned(Tasks(b))
  {
    forall s: nat, i, other: nat | s < |Tasks(b)| && 0 <= i < |Tasks(b)[s]|
      ensures Concerns(Tasks(b)[s][i], other) <==> s == other
    {
      CallTraceConcerns(b, s, other);
    }
  }

  lemma ProjectParallel(b: Batch, schedule: seq<nat>, slot: nat)
    requires slot < |b.plans|
    ensures Project(ParallelSteps(b, schedule), slot) == CallTrace(b, slot)
  {
    hide Project, Flatten, Shuffle, CallTrace, PrepareBlock, Owned;
    ProjectReports(b, slot);
    ProjectPrepare(b, slot);
    TasksOwned(b);
    var whole := LaunchingIsScheduled(b, schedule);
    ProjectShuffle(Tasks(b), whole, slot);
    ProjectParts(Flatten(PrepareBlocks(b), |b.plans|), ConcurrentSteps(b, schedule),
                 Flatten(ReportBlocks(b), |b.plans|), slot,
                 PrepareBlock(b, slot), Tasks(b)[slot]);
    TraceParts(b, slot);
  }

  lemma TraceParts(b: Batch, slot: nat)
    requires slot < |b.plans|
    ensures PrepareBlock(b, slot) + Tasks(b)[slot] == CallTrace(b, slot)
  {
    hide StartStep, EndStep, UpdateSteps;
  }

  lemma ProjectParts(prepare: seq<Step>, work: seq<Step>, report: seq<Step>, slot: nat, x: seq<Step>, y: seq<Step>)
    requires Project(prepare, slot) == x && Project(work, slot) == y && Project(report, slot) == []
    ensures Project(prepare + work + report, slot) == x + y
  {
    ProjectAppend(prepare, work, slot);
    ProjectAppend(prepare + work, report, slot);
  }

  /** In both executors and under every schedule a call goes through exactly the same
      steps in the same order: one start, one execution if it is allowed, one end. */
  lemma EveryCallOnce(b: Batch, schedule: seq<nat>, slot: nat)
    requires slot < |b.plans|
    ensures Project(ParallelSteps(b, schedule), slot) == CallTrace(b, slot)
    ensures Project(SequentialSteps(b), slot) == CallTrace(b, slot)
  {
    ProjectSequential(b, slot);
    ProjectParallel(b, schedule, slot);
  }

  // ----- Order across calls

  predicate Starting(step: Step) {
    step.Emit? && step.event.ToolStart?
  }

  predicate Ending(step: Step) {
    step.Emit? && step.event.ToolEnd?
  }

  predicate Reporting(step: Step) {
    step.Emit? && (step.event.MessageStart? || step.event.MessageEnd?)
  }

  lemma {:induction false} FlatKinds(blocks: seq<seq<Step>>, n: nat, i: nat) returns (block: nat, at: nat)
    requires n <= |blocks| && i < |Flatten(blocks, n)|
    ensures block < n && at < |blocks[block]| && Flatten(blocks, n)[i] == blocks[block][at]
    decreases n
  {
    var before := |Flatten(blocks, n - 1)|;
    if i < before {
      block, at := FlatKinds(blocks, n - 1, i);
    } else {
      block, at := n - 1, i - before;
    }
  }

  lemma PrepareKinds(b: Batch)
    ensures forall i | 0 <= i < |Flatten(PrepareBlocks(b), |b.plans|)| ::
      Starting(Flatten(PrepareBlocks(b), |b.plans|)[i]) || Ending(Flatten(PrepareBlocks(b), |b.plans|)[i])
  {
    forall i | 0 <= i < |Flatten(PrepareBlocks(b), |b.plans|)|
      ensures Starting(Flatten(PrepareBlocks(b), |b.plans|)[i]) || Ending(Flatten(PrepareBlocks(b), |b.plans|)[i])
    {
      var block, at := FlatKinds(PrepareBlocks(b), |b.plans|, i);
    }
  }

  lemma ReportKinds(b: Batch)
    ensures forall i | 0 <= i < |Flatten(ReportBlocks(b), |b.plans|)| ::
      Reporting(Flatten(ReportBlocks(b), |b.plans|)[i])
  {
    forall i | 0 <= i < |Flatten(ReportBlocks(b), |b.plans|)|
      ensures Reporting(Flatten(ReportBlocks(b), |b.plans|)[i])
    {
      var block, at := FlatKinds(ReportBlocks(b), |b.plans|, i);
    }
  }

  predicate Working(step: Step) {
    step.Execute? || (step.Emit? && (step.event.ToolUpdate? || step.event.ToolEnd?))
  }

  lemma {:induction false} ShuffleMember(tasks: seq<seq<Step>>, schedule: seq<nat>, i: nat) returns (slot: nat, at: nat)
    requires i < |Shuffle(tasks, schedule)|
    ensures slot < |tasks| && at < |tasks[slot]| && Shuffle(tasks, schedule)[i] == tasks[slot][at]
    decreases i
  {
    var picked := Pick(tasks, schedule);
    AdvanceShrinks(tasks, picked);
    if i == 0 {
      slot, at := picked, 0;
    } else {
      slot, at := ShuffleMember(Advance(tasks, picked), if schedule == [] then [] else schedule[1..], i - 1);
      at := if slot == picked then at + 1 else at;
    }
  }

  lemma TaskKinds(b: Batch)
    ensures forall slot, i | 0 <= slot < |Tasks(b)| && 0 <= i < |Tasks(b)[slot]| :: Working(Tasks(b)[slot][i])
  {
    forall slot, i | 0 <= slot < |Tasks(b)| && 0 <= i < |Tasks(b)[slot]|
      ensures Working(Tasks(b)[slot][i])
    {
      if 0 < i < |TaskSteps(b, slot)| - 1 {
        assert TaskSteps(b, slot)[i] == UpdateSteps(b, slot)[i - 1];
      }
    }
  }

  lemma ConcurrentKinds(b: Batch, schedule: seq<nat>)
    ensures forall i | 0 <= i < |ConcurrentSteps(b, schedule)| :: Working(ConcurrentSteps(b, schedule)[i])
  {
    var whole := LaunchingIsScheduled(b, schedule);
    TaskKinds(b);
    forall i | 0 <= i < |ConcurrentSteps(b, schedule)| ensures Working(ConcurrentSteps(b, schedule)[i]) {
      var slot, at := ShuffleMember(Tasks(b), whole, i);
    }
  }

  /** Parallel execution: every start precedes every execution, and every end precedes
      the first result message. */
  lemma ParallelOrder(b: Batch, schedule: seq<nat>, i: nat, j: nat)
    requires i < j < |ParallelSteps(b, schedule)|
    ensures ParallelSteps(b, schedule)[i].Execute? ==> !Starting(ParallelSteps(b, schedule)[j])
    ensures Reporting(ParallelSteps(b, schedule)[i]) ==> Reporting(ParallelSteps(b, schedule)[j])
  {
    PrepareKinds(b);
    ReportKinds(b);
    ConcurrentKinds(b, schedule);
    hide Flatten, ConcurrentSteps;
    KindsInOrder(Flatten(PrepareBlocks(b), |b.plans|), ConcurrentSteps(b, schedule),
                 Flatten(ReportBlocks(b), |b.plans|), i, j);
  }

  lemma KindsInOrder(prepare: seq<Step>, work: seq<Step>, report: seq<Step>, i: nat, j: nat)
    requires forall k | 0 <= k < |prepare| :: Starting(prepare[k]) || Ending(prepare[k])
    requires forall k | 0 <= k < |work| :: Working(work[k])
    requires forall k | 0 <= k < |report| :: Reporting(report[k])
    requires i < j < |prepare + work + report|
    ensures var all := prepare + work + report;
            (all[i].Execute? ==> !Starting(all[j])) && (Reporting(all[i]) ==> Reporting(all[j]))
  {
    var all := prepare + work + report;
    forall k: nat | k < |all|
      ensures all[k] == if k < |prepare| then prepare[k]
                        else if k < |prepare| + |work| then work[k - |prepare|]
                        else report[k - |prepare| - |work|]
    {
    }
  }

  // ----- The order in which tools are launched

  lemma {:induction false} FlatOrder(blocks: seq<seq<Step>>, n: nat, i: nat, j: nat)
    returns (block: nat, at: nat, block': nat, at': nat)
    requires n <= |blocks| && i < j < |Flatten(blocks, n)|
    ensures block < n && at < |blocks[block]| && Flatten(blocks, n)[i] == blocks[block][at]
    ensures block' < n && at' < |blocks[block']| && Flatten(blocks, n)[j] == blocks[block'][at']
    ensures block < block' || (block == block' && at < at')
    decreases n
  {
    var before := |Flatten(blocks, n - 1)|;
    if j < before {
      block, at, block', at' := FlatOrder(blocks, n - 1, i, j);
    } else {
      block', at' := n - 1, j - before;
      if i < before {
        block, at := FlatKinds(blocks, n - 1, i);
      } else {
        block, at := n - 1, i - before;
      }
    }
  }

  /** `step` may come before call `slot` executes: a start, the end of a call that may not run,
      or the execution or an update of an earlier call. */
  predicate BeforeLaunch(b: Batch, step: Step, slot: nat) {
    match step
    case Execute(other, _) => other < slot
    case Emit(ToolUpdate(other, _, _), _) => other < slot
    case Emit(ToolEnd(other, _, _, _), _) => other < |b.plans| && !b.plans[other].runs
    case Emit(ToolStart(_, _), _) => true
    case _ => false
  }

  lemma LaunchStep(b: Batch, slot: nat, at: nat)
    requires slot < |b.plans| && at < |LaunchBlock(b, slot)|
    ensures var step := LaunchBlock(b, slot)[at];
            if at == 0 then step == Execute(slot, b.plans[slot].call)
            else step.Emit? && step.event.ToolUpdate? && step.event.slot == slot
  {
    if at > 0 {
      assert LaunchBlock(b, slot)[at] == UpdateSteps(b, slot)[at - 1];
    }
  }

  lemma LaunchedNeverExecutes(b: Batch, schedule: seq<nat>, i: nat)
    requires i < |Shuffle(Launched(b), schedule)|
    ensures !Shuffle(Launched(b), schedule)[i].Execute?
  {
    hide Shuffle, Launched, TaskSteps;
    var slot, at := ShuffleMember(Launched(b), schedule, i);
    LaterStep(b, slot, at);
  }

  lemma LaterStep(b: Batch, slot: nat, at: nat)
    requires slot < |b.plans| && at < |Launched(b)[slot]|
    ensures !Launched(b)[slot][at].Execute?
  {
    hide Launched;
    var task, n := TaskSteps(b, slot), LaunchLength(b, slot);
    assert Launched(b)[slot][at] == task[n + at];
    if n + at < |task| - 1 {
      assert task[n + at] == UpdateSteps(b, slot)[n + at - 1];
    }
  }

  lemma ConcurrentLaunch(b: Batch, schedule: seq<nat>, i: nat, j: nat)
    requires i < j < |ConcurrentSteps(b, schedule)| && ConcurrentSteps(b, schedule)[j].Execute?
    ensures BeforeLaunch(b, ConcurrentSteps(b, schedule)[i], ConcurrentSteps(b, schedule)[j].slot)
  {
    hide LaunchBlock, LaunchBlocks, Shuffle, Flatten, Launched, BeforeLaunch;
    var launch := Flatten(LaunchBlocks(b), |b.plans|);
    if j >= |launch| {
      LaunchedNeverExecutes(b, schedule, j - |launch|);
      assert false;
    }
    LaunchesInOrder(b, i, j);
  }

  lemma LaunchesInOrder(b: Batch, i: nat, j: nat)
    requires i < j < |Flatten(LaunchBlocks(b), |b.plans|)| && Flatten(LaunchBlocks(b), |b.plans|)[j].Execute?
    ensures var launch := Flatten(LaunchBlocks(b), |b.plans|);
            BeforeLaunch(b, launch[i], launch[j].slot)
  {
    hide LaunchBlock, Flatten;
    var slot, at, slot', at' := FlatOrder(LaunchBlocks(b), |b.plans|, i, j);
    LaunchStep(b, slot, at);
    LaunchStep(b, slot', at');
  }

  lemma PreparedBeforeLaunch(b: Batch, i: nat, slot: nat)
    requires i < |Flatten(PrepareBlocks(b), |b.plans|)|
    ensures BeforeLaunch(b, Flatten(PrepareBlocks(b), |b.plans|)[i], slot)
  {
    var block, at := FlatKinds(PrepareBlocks(b), |b.plans|, i);
  }

  /** Parallel execution: tools are launched in source order, and before the last of them is
      launched no call that runs has ended. */
  lemma LaunchOrder(b: Batch, schedule: seq<nat>, i: nat, j: nat)
    requires i < j < |ParallelSteps(b, schedule)| && ParallelSteps(b, schedule)[j].Execute?
    ensures BeforeLaunch(b, ParallelSteps(b, schedule)[i], ParallelSteps(b, schedule)[j].slot)
  {
    var prepare, work := Flatten(PrepareBlocks(b), |b.plans|), ConcurrentSteps(b, schedule);
    var report := Flatten(ReportBlocks(b), |b.plans|);
    PrepareKinds(b);
    ReportKinds(b);
    hide Flatten, ConcurrentSteps, BeforeLaunch;
    InMiddle(prepare, work, report, i, j);
    if i < |prepare| {
      PreparedBeforeLaunch(b, i, work[j - |prepare|].slot);
    } else {
      ConcurrentLaunch(b, schedule, i - |prepare|, j - |prepare|);
    }
  }

  lemma InMiddle(prepare: seq<Step>, work: seq<Step>, report: seq<Step>, i: nat, j: nat)
    requires forall k | 0 <= k < |prepare| :: Starting(prepare[k]) || Ending(prepare[k])
    requires forall k | 0 <= k < |report| :: Reporting(report[k])
    requires i < j < |prepare + work + report| && (prepare + work + report)[j].Execute?
    ensures |prepare| <= j < |prepare| + |work| && (prepare + work + report)[j] == work[j - |prepare|]
    ensures (prepare + work + report)[i] == if i < |prepare| then prepare[i] else work[i - |prepare|]
  {
    forall k | |prepare| + |work| <= k < |prepare + work + report|
      ensures (prepare + work + report)[k] == report[k - |prepare| - |work|]
    {
    }
  }

  /** A batch consists of tool events, executions and result messages. */
  lemma BatchKinds(b: Batch, schedule: seq<nat>, i: nat)
    requires i < |BatchSteps(b, schedule)|
    ensures var step := BatchSteps(b, schedule)[i]; Starting(step) || Working(step) || Reporting(step)
  {
    if b.sequential {
      var slot, at := FlatKinds(SequentialBlocks(b), |b.plans|, i);
      TaskKinds(b);
      assert b.plans[slot].runs ==> Tasks(b)[slot] == TaskSteps(b, slot);
    } else {
      PrepareKinds(b);
      ReportKinds(b);
      ConcurrentKinds(b, schedule);
    }
  }

  // ----- Results

  lemma {:induction false} NothingCommitted(steps: seq<Step>)
    requires forall i | 0 <= i < |steps| :: !Reporting(steps[i])
    ensures Committed(steps) == []
  {
    if steps != [] {
      NothingCommitted(steps[..|steps| - 1]);
    }
  }

  lemma ResultCommitted(b: Batch, slot: nat)
    requires slot < |b.plans|
    ensures Committed(ResultSteps(b, slot)) == [ResultMessage(b.plans[slot])]
  {
    var steps := ResultSteps(b, slot);
    assert steps[..1] == [steps[0]] && [steps[0]][..0] == [];
    assert Committed([steps[0]]) == [];
  }

  /** Blocks that commit one message each commit them in order. */
  lemma {:induction false} FlatCommitted(blocks: seq<seq<Step>>, b: Batch, n: nat)
    requires n <= |blocks| == |b.plans|
    requires forall i | 0 <= i < n :: Committed(blocks[i]) == [ResultMessage(b.plans[i])]
    ensures Committed(Flatten(blocks, n)) == Results(b, n)
    decreases n
  {
    hide Committed, ResultMessage, Results;
    if n == 0 {
      NothingCommitted([]);
      NoResults(b);
    } else {
      FlatCommitted(blocks, b, n - 1);
      NextCommitted(blocks, b, n - 1);
    }
  }

  lemma NoResults(b: Batch)
    ensures Results(b, 0) == []
  {
  }

  lemma NextCommitted(blocks: seq<seq<Step>>, b: Batch, n: nat)
    requires n < |blocks| == |b.plans|
    requires Committed(Flatten(blocks, n)) == Results(b, n) && Committed(blocks[n]) == [ResultMessage(b.plans[n])]
    ensures Committed(Flatten(blocks, n + 1)) == Results(b, n + 1)
  {
    hide Committed, ResultMessage, Results;
    CommittedAppend(Flatten(blocks, n), blocks[n]);
    ResultsGrow(b, n);
  }

  lemma BlockCommitted(b: Batch, slot: nat)
    requires slot < |b.plans|
    ensures Committed(SequentialBlock(b, slot)) == [ResultMessage(b.plans[slot])]
  {
    var trace, report := CallTrace(b, slot), ResultSteps(b, slot);
    forall i | 0 <= i < |trace| ensures !Reporting(trace[i]) {
      CallTraceConcerns(b, slot, slot);
      assert Concerns(trace[i], slot);
    }
    NothingCommitted(trace);
    ResultCommitted(b, slot);
    CommittedAppend(trace, report);
    assert SequentialBlock(b, slot) == trace + report;
  }

  lemma SequentialCommitted(b: Batch)
    ensures Committed(SequentialSteps(b)) == AllResults(b)
  {
    forall i | 0 <= i < |b.plans| ensures Committed(SequentialBlocks(b)[i]) == [ResultMessage(b.plans[i])] {
      BlockCommitted(b, i);
    }
    FlatCommitted(SequentialBlocks(b), b, |b.plans|);
  }

  lemma ReportsCommitted(b: Batch)
    ensures Committed(Flatten(ReportBlocks(b), |b.plans|)) == AllResults(b)
  {
    forall i | 0 <= i < |b.plans| ensures Committed(ReportBlocks(b)[i]) == [ResultMessage(b.plans[i])] {
      ResultCommitted(b, i);
    }
    FlatCommitted(ReportBlocks(b), b, |b.plans|);
  }

  lemma ParallelCommitted(b: Batch, schedule: seq<nat>)
    ensures Committed(ParallelSteps(b, schedule)) == AllResults(b)
  {
    var prepare, work := Flatten(PrepareBlocks(b), |b.plans|), ConcurrentSteps(b, schedule);
    var report := Flatten(ReportBlocks(b), |b.plans|);
    PrepareKinds(b);
    ConcurrentKinds(b, schedule);
    NothingCommitted(prepare);
    NothingCommitted(work);
    ReportsCommitted(b);
    CommittedAppend(prepare, work);
    CommittedAppend(prepare + work, report);
  }

  /** Parallel execution refines sequential execution: the same result messages in source
      order, whatever the schedule. */
  lemma ParallelRefinesSequential(b: Batch, schedule: seq<nat>)
    ensures Committed(ParallelSteps(b, schedule)) == Committed(SequentialSteps(b)) == AllResults(b)
  {
    SequentialCommitted(b);
    ParallelCommitted(b, schedule);
  }

  // ----- Which calls run

  /** The tool found for a name is the first one that bears it. */
  lemma {:induction false} FirstToolFound(tools: seq<Tool>, name: string)
    ensures FindTool(tools, name).None? <==> forall i | 0 <= i < |tools| :: tools[i].name != name
    ensures FindTool(tools, name).Some? ==>
      exists i: nat | i < |tools| :: FindTool(tools, name) == Some(tools[i]) && tools[i].name == name &&
        forall j | 0 <= j < i :: tools[j].name != name
  {
    if tools != [] && tools[0].name != name {
      var rest := tools[1..];
      FirstToolFound(rest, name);
      assert forall i | 0 < i < |tools| :: tools[i] == rest[i - 1];
      if FindTool(rest, name).Some? {
        var i: nat :| i < |rest| && FindTool(rest, name) == Some(rest[i]) && rest[i].name == name &&
                      forall j | 0 <= j < i :: rest[j].name != name;
        assert tools[i + 1] == rest[i];
      }
    }
  }

  /** A call gets past preparation with these arguments: its tool exists, its arguments are
      adapted and valid, and no hook objects. */
  ghost predicate Admits(r: Request, slot: nat, tool: Tool, arguments: Json)
    requires slot < |r.Calls()|
  {
    var call := r.Calls()[slot];
    && FindTool(r.box.tools, call.name) == Some(tool)
    && exists adapted: Json, valid: Json ::
         && (if tool.prepareArguments.Some? then tool.prepareArguments.value(call.arguments) == Ok(adapted)
             else adapted == call.arguments)
         && tool.validate(adapted) == Ok(valid)
         && (if r.box.before.Some?
             then r.box.before.value(slot, r.message, call, valid, r.context) == Ok(Proceed(arguments))
             else arguments == valid)
  }

  /** A call runs exactly when it is admitted, and then with the admitted arguments; one that
      is not admitted ends as an error without running. */
  lemma RunsIfAdmitted(r: Request, slot: nat)
    requires slot < |r.Calls()|
    ensures PlanCall(r, slot).runs <==> exists tool, arguments :: Admits(r, slot, tool, arguments)
    ensures forall tool, arguments :: Admits(r, slot, tool, arguments) <==>
      Prepare(r, slot) == Prepared(tool, arguments)
    ensures !PlanCall(r, slot).runs ==>
      PlanCall(r, slot).outcome.isError && PlanCall(r, slot).outcome.output.terminate.None?
        && PlanCall(r, slot).updates == []
  {
    forall tool, arguments ensures Admits(r, slot, tool, arguments) <==> Prepare(r, slot) == Prepared(tool, arguments) {
      PreparedIfAdmitted(r, slot, tool, arguments);
    }
    if PlanCall(r, slot).runs {
      assert Admits(r, slot, Prepare(r, slot).tool, Prepare(r, slot).arguments);
    }
  }

  lemma PreparedIfAdmitted(r: Request, slot: nat, tool: Tool, arguments: Json)
    requires slot < |r.Calls()|
    ensures Admits(r, slot, tool, arguments) <==> Prepare(r, slot) == Prepared(tool, arguments)
  {
    var call := r.Calls()[slot];
    if Prepare(r, slot) == Prepared(tool, arguments) {
      var adapted := PrepareArguments(tool, call).value;
      var valid := tool.validate(adapted).value;
    }
  }

  /** A batch with a call that may not run always asks for another turn: only calls that ran
      can end the loop, and only if all of them, or their hooks, say so. */
  lemma BlockedCallsContinue(r: Request, slot: nat)
    requires slot < |r.Calls()| && !PlanCall(r, slot).runs
    ensures PlanBatch(r).plans != [] && !Terminates(PlanBatch(r))
  {
    var b := PlanBatch(r);
    PlanBatchPlanned(r);
    assert b.plans[slot] == PlanCall(r, slot);
    RunsIfAdmitted(r, slot);
  }
}
