/** Both executors keep the observer's rules, whatever the schedule. */
module BatchSafety {
  import opened Messages
  import opened ToolBatch
  import opened Watching

  predicate Wants(b: Batch, slot: nat) {
    slot < |b.plans| && b.plans[slot].outcome.output.terminate != Some(true)
  }

  /** `w` differs from `w0`, the observer at the start of the batch, only by the batch:
      the first `started` calls are started and the first `reported` results committed. */
  ghost predicate Within(w0: Watcher, w: Watcher, b: Batch, started: nat, reported: nat)
    requires reported <= started <= |b.plans|
  {
    && w.phase.Acting? && !w.failed && w.agent.streaming.None?
    && w == w0.(agent := w.agent, tools := w.tools, view := w0.view + Results(b, reported), demanded := w.demanded)
    && (w.demanded <==> WantsOf(b, w.tools.ended))
    && w.agent == w0.agent.(messages := w0.agent.messages + Results(b, reported), pending := w.agent.pending)
    && w.tools.calls == b.Calls()
    && w.tools.starts == started
    && w.tools.results == reported
    && (forall i | i in w.tools.open :: i < started && w.tools.open[i] == b.plans[i].call.id)
    && (forall i | i in w.tools.ended :: i < started && w.tools.ended[i] == ResultMessage(b.plans[i]))
    && (forall i: nat | i < started :: i in w.tools.open || i in w.tools.ended)
    && (forall i | i in w.tools.executing :: i in w.tools.open)
  }

  lemma BatchOpens(w: Watcher, b: Batch)
    requires w.phase.Acting? && !w.failed && w.agent.streaming.None?
    requires w.tools == NO_TOOLS.(calls := b.Calls()) && !w.demanded
    ensures Within(w, w, b, 0, 0)
  {
    assert w.agent.messages + Results(b, 0) == w.agent.messages;
    assert w.view + Results(b, 0) == w.view;
  }

  // ----- Single steps

  lemma StartSafe(w0: Watcher, w: Watcher, b: Batch, slot: nat, reported: nat)
    requires reported <= slot < |b.plans| && Within(w0, w, b, slot, reported)
    ensures Acceptable(w, StartStep(b, slot))
    ensures var w' := Observe(w, StartStep(b, slot));
            && Within(w0, w', b, slot + 1, reported)
            && w'.tools.open == w.tools.open[slot := b.plans[slot].call.id]
            && w'.tools.executing == w.tools.executing
            && w'.tools.ended == w.tools.ended
  {
  }

  lemma EndSafe(w0: Watcher, w: Watcher, b: Batch, slot: nat, started: nat, reported: nat)
    requires reported <= started <= |b.plans| && slot < started && Within(w0, w, b, started, reported)
    requires slot in w.tools.open
    ensures Acceptable(w, EndStep(b, slot))
    ensures var w' := Observe(w, EndStep(b, slot));
            && Within(w0, w', b, started, reported)
            && w'.tools.open == w.tools.open - {slot}
            && w'.tools.executing == w.tools.executing - {slot}
            && w'.tools.ended == w.tools.ended[slot := ResultMessage(b.plans[slot])]
  {
    var m := ResultMessage(b.plans[slot]);
    EndEffect(w, b, slot);
    EndRules(w, b, slot);
    hide Acceptable, Observe, Wants, WantsOf, ResultMessage;
    WantsGrow(b, w.tools.ended, slot, m);
  }

  /** What the end of a call changes in what the observer knows. */
  lemma EndEffect(w: Watcher, b: Batch, slot: nat)
    requires slot < |b.plans| && w.phase.Acting?
    ensures var m, call := ResultMessage(b.plans[slot]), b.plans[slot].call;
            Observe(w, EndStep(b, slot)) ==
              w.(agent := w.agent.(pending := w.agent.pending - {call.id}),
                 tools := w.tools.(open := w.tools.open - {slot}, executing := w.tools.executing - {slot},
                                   ended := w.tools.ended[slot := m]),
                 demanded := w.demanded || Wants(b, slot))
  {
  }

  lemma EndRules(w: Watcher, b: Batch, slot: nat)
    requires slot < |b.plans| && w.phase.Acting? && slot in w.tools.open && w.tools.calls == b.Calls()
    ensures Acceptable(w, EndStep(b, slot))
  {
  }

  /** Some call that has ended wants another turn. */
  ghost predicate WantsOf(b: Batch, ended: map<nat, Message>) {
    exists i: nat | i in ended :: Wants(b, i)
  }

  lemma WantsGrow(b: Batch, ended: map<nat, Message>, slot: nat, m: Message)
    ensures WantsOf(b, ended[slot := m]) <==> WantsOf(b, ended) || Wants(b, slot)
  {
    if Wants(b, slot) {
      assert slot in ended[slot := m];
    }
    if WantsOf(b, ended) {
      var i: nat :| i in ended && Wants(b, i);
      assert i in ended[slot := m];
    }
  }

  /** Any step of a prepared call, at any time between its start and its end. */
  lemma TaskStepSafe(w0: Watcher, w: Watcher, b: Batch, slot: nat, at: nat, started: nat, reported: nat)
    requires reported <= started <= |b.plans| && slot < started && Within(w0, w, b, started, reported)
    requires b.plans[slot].runs && at < |TaskSteps(b, slot)|
    requires slot in w.tools.open && (slot in w.tools.executing <==> at > 0)
    ensures Acceptable(w, TaskSteps(b, slot)[at])
    ensures var w' := Observe(w, TaskSteps(b, slot)[at]);
            && Within(w0, w', b, started, reported)
            && (if at + 1 < |TaskSteps(b, slot)| then
                  && w'.tools.open == w.tools.open
                  && w'.tools.executing == w.tools.executing + {slot}
                  && w'.tools.ended == w.tools.ended
                else
                  && w'.tools.open == w.tools.open - {slot}
                  && w'.tools.executing == w.tools.executing - {slot}
                  && w'.tools.ended == w.tools.ended[slot := ResultMessage(b.plans[slot])])
  {
    if at + 1 == |TaskSteps(b, slot)| {
      EndSafe(w0, w, b, slot, started, reported);
    } else if at > 0 {
      assert TaskSteps(b, slot)[at] == UpdateSteps(b, slot)[at - 1];
    }
  }

  lemma ReportSafe(w0: Watcher, w: Watcher, b: Batch, started: nat, reported: nat) returns (w': Watcher)
    requires reported < started <= |b.plans| && Within(w0, w, b, started, reported)
    requires w.tools.open == map[]
    ensures Leads(w, ResultSteps(b, reported), w')
    ensures Within(w0, w', b, started, reported + 1) && w'.tools.open == map[]
  {
    var m := ResultMessage(b.plans[reported]);
    assert reported in w.tools.ended && w.tools.ended[reported] == m;
    BracketSafe(w, m, b.context);
    w' := Watch(w, ResultSteps(b, reported));
    ResultsGrow(b, reported);
    assert w0.agent.messages + Results(b, reported + 1) == w0.agent.messages + Results(b, reported) + [m];
    assert w0.view + Results(b, reported + 1) == w0.view + Results(b, reported) + [m];
  }

  lemma BracketSafe(w: Watcher, m: Message, context: seq<Message>)
    requires w.phase.Acting? && w.agent.streaming.None?
    requires w.tools.open == map[] && w.tools.results in w.tools.ended && w.tools.ended[w.tools.results] == m
    ensures Leads(w, [Emit(MessageStart(m), context), Emit(MessageEnd(m), context)],
                  w.(agent := w.agent.(messages := w.agent.messages + [m]),
                     tools := w.tools.(results := w.tools.results + 1),
                     view := w.view + [m]))
  {
    var first, second := Emit(MessageStart(m), context), Emit(MessageEnd(m), context);
    var mid := w.(agent := w.agent.(streaming := Some(m)), phase := ResultBracket(m));
    assert Acceptable(w, first) && Observe(w, first) == mid;
    assert Acceptable(mid, second);
    OneStep(w, first);
    OneStep(mid, second);
    assert [first, second] == [first] + [second];
    WatchAppend(w, [first], [second]);
  }

  // ----- Sequential execution

  lemma {:induction false} TaskSafe(w0: Watcher, w: Watcher, b: Batch, slot: nat, at: nat) returns (w': Watcher)
    requires slot < |b.plans| && Within(w0, w, b, slot + 1, slot)
    requires b.plans[slot].runs && at < |TaskSteps(b, slot)|
    requires w.tools.open.Keys == {slot} && (slot in w.tools.executing <==> at > 0)
    ensures Leads(w, TaskSteps(b, slot)[at..], w')
    ensures Within(w0, w', b, slot + 1, slot) && w'.tools.open == map[]
    decreases |TaskSteps(b, slot)| - at
  {
    hide Within, Leads, Watch, Safe, Acceptable, Observe, TaskSteps;
    var task := TaskSteps(b, slot);
    TaskStepSafe(w0, w, b, slot, at, slot + 1, slot);
    var next := Observe(w, task[at]);
    OneStep(w, task[at]);
    if at + 1 < |task| {
      w' := TaskSafe(w0, next, b, slot, at + 1);
    } else {
      w' := next;
      NoSteps(w');
    }
    LeadsAppend(w, [task[at]], next, task[at + 1..], w');
    assert task[at..] == [task[at]] + task[at + 1..];
  }

  lemma NoSteps(w: Watcher)
    ensures Leads(w, [], w)
  {
  }

  lemma NoBlocks(w: Watcher, blocks: seq<seq<Step>>)
    ensures Leads(w, Flatten(blocks, 0), w)
  {
  }

  lemma {:induction false} SequentialSafe(w0: Watcher, b: Batch, n: nat) returns (w: Watcher)
    requires n <= |b.plans| && Within(w0, w0, b, 0, 0)
    requires w0.tools.open == map[]
    ensures Leads(w0, Flatten(SequentialBlocks(b), n), w)
    ensures Within(w0, w, b, n, n) && w.tools.open == map[]
    decreases n
  {
    hide Within, Leads, Flatten;
    if n == 0 {
      w := w0;
      NoBlocks(w0, SequentialBlocks(b));
    } else {
      var mid := SequentialSafe(w0, b, n - 1);
      w := NextSequentialSafe(w0, mid, b, n - 1);
    }
  }

  lemma NextSequentialSafe(w0: Watcher, mid: Watcher, b: Batch, n: nat) returns (w: Watcher)
    requires n < |b.plans| && Leads(w0, Flatten(SequentialBlocks(b), n), mid)
    requires Within(w0, mid, b, n, n) && mid.tools.open == map[]
    ensures Leads(w0, Flatten(SequentialBlocks(b), n + 1), w)
    ensures Within(w0, w, b, n + 1, n + 1) && w.tools.open == map[]
  {
    hide *;
    FlattenNext(SequentialBlocks(b), n + 1);
    w := SequentialBlockSafe(w0, mid, b, n);
    LeadsAppend(w0, Flatten(SequentialBlocks(b), n), mid, SequentialBlock(b, n), w);
  }

  lemma SequentialBlockSafe(w0: Watcher, w: Watcher, b: Batch, slot: nat) returns (w': Watcher)
    requires slot < |b.plans| && Within(w0, w, b, slot, slot) && w.tools.open == map[]
    ensures Leads(w, SequentialBlock(b, slot), w')
    ensures Within(w0, w', b, slot + 1, slot + 1) && w'.tools.open == map[]
  {
    var start := StartStep(b, slot);
    StartSafe(w0, w, b, slot, slot);
    OneStep(w, start);
    var started := Observe(w, start);
    var work := if b.plans[slot].runs then TaskSteps(b, slot) else [EndStep(b, slot)];
    var done := WorkSafe(w0, started, b, slot, work);
    w' := ReportSafe(w0, done, b, slot + 1, slot);
    LeadsAppend(w, [start], started, work, done);
    LeadsAppend(w, [start] + work, done, ResultSteps(b, slot), w');
  }

  lemma WorkSafe(w0: Watcher, w: Watcher, b: Batch, slot: nat, work: seq<Step>) returns (w': Watcher)
    requires slot < |b.plans| && Within(w0, w, b, slot + 1, slot) && w.tools.open.Keys == {slot}
    requires slot !in w.tools.executing
    requires work == if b.plans[slot].runs then TaskSteps(b, slot) else [EndStep(b, slot)]
    ensures Leads(w, work, w') && Within(w0, w', b, slot + 1, slot) && w'.tools.open == map[]
  {
    if b.plans[slot].runs {
      w' := TaskSafe(w0, w, b, slot, 0);
      assert work[0..] == work;
    } else {
      EndSafe(w0, w, b, slot, slot + 1, slot);
      OneStep(w, EndStep(b, slot));
      w' := Watch(w, work);
    }
  }

  // ----- Parallel execution

  /** The first `n` calls are started; the ones that may not run have ended. */
  ghost predicate Readied(w0: Watcher, w: Watcher, b: Batch, n: nat)
    requires n <= |b.plans|
  {
    && Within(w0, w, b, n, 0)
    && w.tools.executing == {}
    && (forall i: nat | i < n :: i in w.tools.open <==> b.plans[i].runs)
    && (forall i: nat | i < n :: i in w.tools.ended <==> !b.plans[i].runs)
  }

  lemma PrepareBlockSafe(w0: Watcher, w: Watcher, b: Batch, slot: nat) returns (w': Watcher)
    requires slot < |b.plans| && Readied(w0, w, b, slot)
    ensures Leads(w, PrepareBlock(b, slot), w') && Readied(w0, w', b, slot + 1)
  {
    var start := StartStep(b, slot);
    StartSafe(w0, w, b, slot, 0);
    OneStep(w, start);
    assert slot !in w.tools.ended && slot !in w.tools.open;
    w' := Observe(w, start);
    if b.plans[slot].runs {
      assert PrepareBlock(b, slot) == [start];
    } else {
      var end := EndStep(b, slot);
      EndSafe(w0, w', b, slot, slot + 1, 0);
      OneStep(w', end);
      LeadsAppend(w, [start], w', [end], Observe(w', end));
      w' := Observe(w', end);
    }
  }

  lemma {:induction false} PrepareSafe(w0: Watcher, b: Batch, n: nat) returns (w: Watcher)
    requires n <= |b.plans| && Within(w0, w0, b, 0, 0)
    requires w0.tools.open == map[] && w0.tools.ended == map[]
    ensures Leads(w0, Flatten(PrepareBlocks(b), n), w) && Readied(w0, w, b, n)
    decreases n
  {
    hide Within, Leads, Flatten, Readied;
    if n == 0 {
      w := w0;
      NoBlocks(w0, PrepareBlocks(b));
      NoneReadied(w0, b);
    } else {
      var mid := PrepareSafe(w0, b, n - 1);
      w := NextPrepareSafe(w0, mid, b, n - 1);
    }
  }

  lemma NoneReadied(w: Watcher, b: Batch)
    requires Within(w, w, b, 0, 0) && w.tools.open == map[] && w.tools.ended == map[]
    ensures Readied(w, w, b, 0)
  {
  }

  lemma NextPrepareSafe(w0: Watcher, mid: Watcher, b: Batch, n: nat) returns (w: Watcher)
    requires n < |b.plans| && Leads(w0, Flatten(PrepareBlocks(b), n), mid) && Readied(w0, mid, b, n)
    ensures Leads(w0, Flatten(PrepareBlocks(b), n + 1), w) && Readied(w0, w, b, n + 1)
  {
    hide *;
    FlattenNext(PrepareBlocks(b), n + 1);
    w := PrepareBlockSafe(w0, mid, b, n);
    LeadsAppend(w0, Flatten(PrepareBlocks(b), n), mid, PrepareBlock(b, n), w);
  }

  /** The observer and the remaining tasks agree on which calls are idle, running, ended. */
  ghost predicate Tracks(w: Watcher, b: Batch, tasks: seq<seq<Step>>) {
    |tasks| == |b.plans| && forall i: nat | i < |tasks| :: TracksOne(w, b, tasks, i)
  }

  ghost predicate TracksOne(w: Watcher, b: Batch, tasks: seq<seq<Step>>, i: nat)
    requires i < |tasks| == |b.plans|
  {
    && |tasks[i]| <= |Tasks(b)[i]|
    && tasks[i] == Tasks(b)[i][|Tasks(b)[i]| - |tasks[i]|..]
    && (i in w.tools.open <==> tasks[i] != [])
    && (i in w.tools.executing <==> 0 < |tasks[i]| < |Tasks(b)[i]|)
    && (i in w.tools.ended <==> tasks[i] == [])
  }

  lemma AdvanceTracks(w: Watcher, w': Watcher, b: Batch, tasks: seq<seq<Step>>, slot: nat)
    requires Tracks(w, b, tasks) && slot < |tasks| && tasks[slot] != []
    requires if |tasks[slot]| > 1 then
               && w'.tools.open.Keys == w.tools.open.Keys
               && w'.tools.executing == w.tools.executing + {slot}
               && w'.tools.ended.Keys == w.tools.ended.Keys
             else
               && w'.tools.open.Keys == w.tools.open.Keys - {slot}
               && w'.tools.executing == w.tools.executing - {slot}
               && w'.tools.ended.Keys == w.tools.ended.Keys + {slot}
    ensures Tracks(w', b, Advance(tasks, slot))
  {
    forall i: nat | i < |tasks| ensures TracksOne(w', b, Advance(tasks, slot), i) {
      hide Tasks, TracksOne;
      assert TracksOne(w, b, tasks, i);
      if i == slot {
        OwnTracks(w, w', b, tasks, slot);
      } else {
        OtherTracks(w, w', b, tasks, slot, i);
      }
    }
  }

  lemma OwnTracks(w: Watcher, w': Watcher, b: Batch, tasks: seq<seq<Step>>, slot: nat)
    requires slot < |tasks| == |b.plans| && tasks[slot] != [] && TracksOne(w, b, tasks, slot)
    requires slot in w'.tools.open <==> |tasks[slot]| > 1
    requires slot in w'.tools.executing <==> |tasks[slot]| > 1
    requires slot in w'.tools.ended <==> |tasks[slot]| == 1
    ensures TracksOne(w', b, Advance(tasks, slot), slot)
  {
    hide Tasks, TaskSteps;
    var rest := tasks[slot][1..];
    SuffixDrops(Tasks(b)[slot], tasks[slot]);
    assert Advance(tasks, slot)[slot] == rest && (rest == [] <==> |tasks[slot]| == 1);
    hide Advance;
  }

  lemma SuffixDrops(whole: seq<Step>, part: seq<Step>)
    requires 0 < |part| <= |whole| && part == whole[|whole| - |part|..]
    ensures part[1..] == whole[|whole| - |part[1..]|..]
  {
  }

  lemma OtherTracks(w: Watcher, w': Watcher, b: Batch, tasks: seq<seq<Step>>, slot: nat, i: nat)
    requires slot < |tasks| == |b.plans| && tasks[slot] != [] && i < |tasks| && i != slot && TracksOne(w, b, tasks, i)
    requires i in w'.tools.open <==> i in w.tools.open
    requires i in w'.tools.executing <==> i in w.tools.executing
    requires i in w'.tools.ended <==> i in w.tools.ended
    ensures TracksOne(w', b, Advance(tasks, slot), i)
  {
    hide Tasks;
  }

  lemma {:induction false} ShuffleSafe(w0: Watcher, w: Watcher, b: Batch, tasks: seq<seq<Step>>, schedule: seq<nat>)
    requires Within(w0, w, b, |b.plans|, 0) && Tracks(w, b, tasks)
    ensures Safe(w, Shuffle(tasks, schedule))
    ensures var w' := Watch(w, Shuffle(tasks, schedule));
            Within(w0, w', b, |b.plans|, 0) && w'.tools.open == map[]
    decreases TotalLength(tasks)
  {
    if Exhausted(tasks) {
      assert forall i: nat | i < |tasks| && TracksOne(w, b, tasks, i) :: i !in w.tools.open;
      assert w.tools.open == map[];
    } else {
      var slot := Pick(tasks, schedule);
      var later := if schedule == [] then [] else schedule[1..];
      var w' := PickSafe(w0, w, b, tasks, slot);
      AdvanceShrinks(tasks, slot);
      var rest := Shuffle(Advance(tasks, slot), later);
      ShuffleSafe(w0, w', b, Advance(tasks, slot), later);
      OneStep(w, tasks[slot][0]);
      WatchAppend(w, [tasks[slot][0]], rest);
    }
  }

  lemma PickSafe(w0: Watcher, w: Watcher, b: Batch, tasks: seq<seq<Step>>, slot: nat) returns (w': Watcher)
    requires Within(w0, w, b, |b.plans|, 0) && Tracks(w, b, tasks)
    requires slot < |tasks| && tasks[slot] != []
    ensures Acceptable(w, tasks[slot][0]) && w' == Observe(w, tasks[slot][0])
    ensures Within(w0, w', b, |b.plans|, 0) && Tracks(w', b, Advance(tasks, slot))
  {
    assert TracksOne(w, b, tasks, slot);
    var task := TaskSteps(b, slot);
    var at := |task| - |tasks[slot]|;
    assert Tasks(b)[slot] == task && tasks[slot][0] == task[at];
    TaskStepSafe(w0, w, b, slot, at, |b.plans|, 0);
    w' := Observe(w, task[at]);
    AdvanceTracks(w, w', b, tasks, slot);
  }

  lemma {:induction false} ReportsSafe(w0: Watcher, w: Watcher, b: Batch, n: nat) returns (w': Watcher)
    requires n <= |b.plans| && Within(w0, w, b, |b.plans|, 0) && w.tools.open == map[]
    ensures Leads(w, Flatten(ReportBlocks(b), n), w')
    ensures Within(w0, w', b, |b.plans|, n) && w'.tools.open == map[]
    decreases n
  {
    hide Within, Leads, Flatten;
    if n == 0 {
      w' := w;
      NoBlocks(w, ReportBlocks(b));
    } else {
      var mid := ReportsSafe(w0, w, b, n - 1);
      w' := NextReportSafe(w0, w, mid, b, n - 1);
    }
  }

  lemma NextReportSafe(w0: Watcher, w: Watcher, mid: Watcher, b: Batch, n: nat) returns (w': Watcher)
    requires n < |b.plans| && Within(w0, mid, b, |b.plans|, n) && mid.tools.open == map[]
    requires Leads(w, Flatten(ReportBlocks(b), n), mid)
    ensures Leads(w, Flatten(ReportBlocks(b), n + 1), w')
    ensures Within(w0, w', b, |b.plans|, n + 1) && w'.tools.open == map[]
  {
    hide *;
    FlattenNext(ReportBlocks(b), n + 1);
    w' := ReportSafe(w0, mid, b, |b.plans|, n);
    LeadsAppend(w, Flatten(ReportBlocks(b), n), mid, ResultSteps(b, n), w');
  }

  lemma ParallelSafe(w0: Watcher, b: Batch, schedule: seq<nat>) returns (w: Watcher)
    requires Within(w0, w0, b, 0, 0)
    requires w0.tools.open == map[] && w0.tools.ended == map[]
    ensures Leads(w0, ParallelSteps(b, schedule), w)
    ensures Within(w0, w, b, |b.plans|, |b.plans|) && w.tools.open == map[]
  {
    hide Flatten, ConcurrentSteps, Within, Readied, Leads;
    var n := |b.plans|;
    var prepare, work, report := Flatten(PrepareBlocks(b), n), ConcurrentSteps(b, schedule),
      Flatten(ReportBlocks(b), n);
    var prepared := PrepareSafe(w0, b, n);
    var worked := ConcurrentSafe(w0, prepared, b, schedule);
    w := ReportsSafe(w0, worked, b, n);
    LeadsAppend(w0, prepare, prepared, work, worked);
    LeadsAppend(w0, prepare + work, worked, report, w);
  }

  lemma TasksTracked(w0: Watcher, w: Watcher, b: Batch)
    requires Readied(w0, w, b, |b.plans|)
    ensures Within(w0, w, b, |b.plans|, 0) && Tracks(w, b, Tasks(b))
  {
  }

  lemma ConcurrentSafe(w0: Watcher, w: Watcher, b: Batch, schedule: seq<nat>) returns (w': Watcher)
    requires Readied(w0, w, b, |b.plans|)
    ensures Leads(w, ConcurrentSteps(b, schedule), w')
    ensures Within(w0, w', b, |b.plans|, 0) && w'.tools.open == map[]
  {
    hide ConcurrentSteps, Shuffle, Within, Tracks, Readied, Safe, Watch;
    TasksTracked(w0, w, b);
    var whole := LaunchingIsScheduled(b, schedule);
    ShuffleSafe(w0, w, b, Tasks(b), whole);
    w' := Watch(w, ConcurrentSteps(b, schedule));
  }

  /** A whole batch, in either mode and under any schedule: safe, and at its end every
      call is started, ended and reported, and exactly the results are committed. */
  lemma BatchSafe(w: Watcher, b: Batch, schedule: seq<nat>)
    requires w.phase.Acting? && !w.failed && w.agent.streaming.None?
    requires w.tools == NO_TOOLS.(calls := b.Calls()) && !w.demanded
    ensures Safe(w, BatchSteps(b, schedule))
    ensures var w' := Watch(w, BatchSteps(b, schedule));
            Within(w, w', b, |b.plans|, |b.plans|) && w'.tools.open == map[]
  {
    BatchOpens(w, b);
    if b.sequential {
      var w' := SequentialSafe(w, b, |b.plans|);
    } else {
      var w' := ParallelSafe(w, b, schedule);
    }
  }
}
