/** Which executor runs a batch, and how its concurrent calls interleave, shows in nothing
    but the tool events themselves. */
module ExecutorRefinement {
  import opened Messages
  import opened Tools
  import opened ToolBatch
  import opened LoopSpec
  import opened BatchTheorems

  // ----- What remains when tool events are left out

  predicate IsToolStep(step: Step) {
    step.Execute? || (step.Emit? && (step.event.ToolStart? || step.event.ToolUpdate? || step.event.ToolEnd?))
  }

  /** The steps with the events and executions of single tool calls left out: LLM calls with
      their contexts, messages, turns, polls and everything users do. */
  function Visible(steps: seq<Step>): seq<Step> {
    if steps == [] then []
    else
      var before, last := Visible(steps[..|steps| - 1]), steps[|steps| - 1];
      if IsToolStep(last) then before else before + [last]
  }

  lemma {:induction false} VisibleAppend(a: seq<Step>, b: seq<Step>)
    ensures Visible(a + b) == Visible(a) + Visible(b)
    decreases |b|
  {
    if b == [] {
      assert a + b == a;
    } else {
      assert (a + b)[..|a + b| - 1] == a + b[..|b| - 1];
      VisibleAppend(a, b[..|b| - 1]);
    }
  }

  lemma {:induction false} AllVisible(steps: seq<Step>)
    requires forall i | 0 <= i < |steps| :: !IsToolStep(steps[i])
    ensures Visible(steps) == steps
  {
    if steps != [] {
      AllVisible(steps[..|steps| - 1]);
    }
  }

  lemma {:induction false} NoneVisible(steps: seq<Step>)
    requires forall i | 0 <= i < |steps| :: IsToolStep(steps[i])
    ensures Visible(steps) == []
  {
    if steps != [] {
      NoneVisible(steps[..|steps| - 1]);
    }
  }

  // ----- One batch

  lemma BlockVisible(b: Batch, slot: nat)
    requires slot < |b.plans|
    ensures Visible(SequentialBlock(b, slot)) == ResultSteps(b, slot)
  {
    var trace, report := CallTrace(b, slot), ResultSteps(b, slot);
    forall i | 0 <= i < |trace| ensures IsToolStep(trace[i]) {
      CallTraceConcerns(b, slot, slot);
      assert Concerns(trace[i], slot);
    }
    NoneVisible(trace);
    AllVisible(report);
    VisibleAppend(trace, report);
    assert SequentialBlock(b, slot) == trace + report;
  }

  lemma {:induction false} FlatVisible(blocks: seq<seq<Step>>, shown: seq<seq<Step>>, n: nat)
    requires n <= |blocks| == |shown| && forall i | 0 <= i < n :: Visible(blocks[i]) == shown[i]
    ensures Visible(Flatten(blocks, n)) == Flatten(shown, n)
    decreases n
  {
    if n > 0 {
      FlatVisible(blocks, shown, n - 1);
      VisibleAppend(Flatten(blocks, n - 1), blocks[n - 1]);
    }
  }

  lemma SequentialVisible(b: Batch)
    ensures Visible(SequentialSteps(b)) == Flatten(ReportBlocks(b), |b.plans|)
  {
    hide SequentialBlock, ResultSteps, Visible, Flatten;
    var blocks, shown := SequentialBlocks(b), ReportBlocks(b);
    forall i: nat | i < |b.plans| ensures Visible(blocks[i]) == shown[i] {
      BlockVisible(b, i);
      assert blocks[i] == SequentialBlock(b, i) && shown[i] == ResultSteps(b, i);
    }
    FlatVisible(blocks, shown, |b.plans|);
  }

  lemma ParallelVisible(b: Batch, schedule: seq<nat>)
    ensures Visible(ParallelSteps(b, schedule)) == Flatten(ReportBlocks(b), |b.plans|)
  {
    var prepare, work := Flatten(PrepareBlocks(b), |b.plans|), ConcurrentSteps(b, schedule);
    var report := Flatten(ReportBlocks(b), |b.plans|);
    PrepareKinds(b);
    ConcurrentKinds(b, schedule);
    ReportKinds(b);
    NoneVisible(prepare);
    NoneVisible(work);
    AllVisible(report);
    VisibleAppend(prepare, work);
    VisibleAppend(prepare + work, report);
  }

  lemma BatchVisible(b: Batch, schedule: seq<nat>)
    ensures Visible(BatchSteps(b, schedule)) == Flatten(ReportBlocks(b), |b.plans|)
  {
    if b.sequential {
      SequentialVisible(b);
    } else {
      ParallelVisible(b, schedule);
    }
  }

  // ----- One turn

  /** The same turn, except for the configured execution mode and the schedule. */
  ghost predicate SameTurn(t: TurnInput, t': TurnInput) {
    t' == t.(schedule := t'.schedule, box := t.box.(mode := t'.box.mode))
  }

  lemma {:induction false} SamePlan(r: Request, mode: ExecutionMode, n: nat)
    requires n <= |r.Calls()|
    ensures Plan(r.(box := r.box.(mode := mode)), n) == Plan(r, n)
  {
    if n > 0 {
      SamePlan(r, mode, n - 1);
    }
  }

  lemma SameBatch(asked: seq<Message>, t: TurnInput, t': TurnInput)
    requires SameTurn(t, t')
    ensures TurnBatch(asked, t') == TurnBatch(asked, t).(sequential := TurnBatch(asked, t').sequential)
  {
    var r := Request(t.box, AfterStream(asked, false, t.response), t.response.final);
    SamePlan(r, t'.box.mode, |r.Calls()|);
  }

  lemma SameReports(b: Batch, sequential: bool)
    ensures ReportBlocks(b.(sequential := sequential)) == ReportBlocks(b)
    ensures AllResults(b.(sequential := sequential)) == AllResults(b)
  {
    var b' := b.(sequential := sequential);
    forall i: nat | i < |b.plans| ensures ReportBlocks(b')[i] == ReportBlocks(b)[i] {
      assert ResultSteps(b', i) == ResultSteps(b, i);
    }
  }

  lemma SameAct(asked: seq<Message>, t: TurnInput, t': TurnInput)
    requires SameTurn(t, t')
    ensures Visible(ActSteps(asked, t')) == Visible(ActSteps(asked, t))
    ensures TurnResults(asked, t') == TurnResults(asked, t)
    ensures Demands(asked, t') == Demands(asked, t)
  {
    var b, b' := TurnBatch(asked, t), TurnBatch(asked, t');
    SameBatch(asked, t, t');
    SameReports(b, b'.sequential);
    BatchVisible(b, t.schedule);
    BatchVisible(b', t'.schedule);
  }

  lemma TurnOutcome(ls: Loop, pending: seq<Message>, first: bool, t: TurnInput, t': TurnInput)
    requires SameTurn(t, t')
    ensures AfterTurn(ls, pending, t') == AfterTurn(ls, pending, t)
    ensures Demands(ls.context + pending, t') == Demands(ls.context + pending, t)
    ensures Visible(TurnSteps(ls, pending, first, t')) == Visible(TurnSteps(ls, pending, first, t))
  {
    var asked := ls.context + pending;
    SameAct(asked, t, t');
    hide ActSteps, TurnResults, Demands, AskSteps, AnswerSteps;
    var before := AskSteps(ls.context, pending, first) + AnswerSteps(asked, t);
    assert AnswerSteps(asked, t') == AnswerSteps(asked, t) by { SameAnswer(asked, t, t'); }
    var last := [TurnEndStep(ls, pending, t)];
    VisibleAppend(before, ActSteps(asked, t));
    VisibleAppend(before + ActSteps(asked, t), last);
    VisibleAppend(before, ActSteps(asked, t'));
    VisibleAppend(before + ActSteps(asked, t'), last);
  }

  lemma SameAnswer(asked: seq<Message>, t: TurnInput, t': TurnInput)
    requires SameTurn(t, t')
    ensures AnswerSteps(asked, t') == AnswerSteps(asked, t)
  {
  }

  // ----- Whole runs

  ghost predicate SameScript(script: seq<TurnInput>, script': seq<TurnInput>) {
    |script'| == |script| && forall i | 0 <= i < |script| :: SameTurn(script[i], script'[i])
  }

  ghost predicate SameRun(run: Run, run': Run) {
    Visible(run'.steps) == Visible(run.steps) && run'.end == run.end && run'.finished == run.finished
  }

  lemma AfterSame(run: Run, run': Run, steps: seq<Step>, steps': seq<Step>)
    requires SameRun(run, run') && Visible(steps') == Visible(steps)
    ensures SameRun(run.After(steps), run'.After(steps'))
  {
    VisibleAppend(steps, run.steps);
    VisibleAppend(steps', run'.steps);
  }

  lemma {:induction false} RunFromSame(ls: Loop, pending: seq<Message>, first: bool,
                                       script: seq<TurnInput>, script': seq<TurnInput>)
    requires SameScript(script, script')
    ensures SameRun(RunFrom(ls, pending, first, script), RunFrom(ls, pending, first, script'))
    decreases |script|
  {
    if script != [] {
      hide SameRun, TurnSteps, SameTurn;
      var t, t' := script[0], script'[0];
      TurnOutcome(ls, pending, first, t, t');
      AfterResponseSame(ls, pending, t, t', script[1..], script'[1..]);
      AfterSame(AfterResponse(ls, pending, t, script[1..]), AfterResponse(ls, pending, t', script'[1..]),
                TurnSteps(ls, pending, first, t), TurnSteps(ls, pending, first, t'));
    }
  }

  lemma {:induction false} AfterResponseSame(ls: Loop, pending: seq<Message>, t: TurnInput, t': TurnInput,
                                             script: seq<TurnInput>, script': seq<TurnInput>)
    requires SameTurn(t, t') && SameScript(script, script')
    ensures SameRun(AfterResponse(ls, pending, t, script), AfterResponse(ls, pending, t', script'))
    decreases |script| + 1, 2
  {
    var end, more := AfterTurn(ls, pending, t), Demands(ls.context + pending, t);
    TurnOutcome(ls, pending, true, t, t');
    if !Failed(t.response.final) {
      var hooked := AfterPrepare(end, t);
      hide SameRun, Demands, AfterTurn, AfterPrepare, HookSteps, Close;
      SameHooks(end, t, t', more);
      if t.stop {
        SameItself(Close(hooked));
        AfterSame(Close(hooked), Close(hooked), HookSteps(end, t, more), HookSteps(end, t', more));
      } else {
        AfterStopSame(hooked, more, t, t', script, script');
        AfterSame(AfterStop(hooked, more, t, script), AfterStop(hooked, more, t', script'),
                  HookSteps(end, t, more), HookSteps(end, t', more));
      }
    }
  }

  lemma SameItself(run: Run)
    ensures SameRun(run, run)
  {
  }

  lemma SameHooks(end: Loop, t: TurnInput, t': TurnInput, more: bool)
    requires SameTurn(t, t')
    ensures HookSteps(end, t', more) == HookSteps(end, t, more) && AfterPrepare(end, t') == AfterPrepare(end, t)
    ensures Failed(t'.response.final) == Failed(t.response.final) && t'.stop == t.stop
  {
  }

  lemma {:induction false} AfterStopSame(ls: Loop, more: bool, t: TurnInput, t': TurnInput,
                                         script: seq<TurnInput>, script': seq<TurnInput>)
    requires SameTurn(t, t') && SameScript(script, script')
    ensures SameRun(AfterStop(ls, more, t, script), AfterStop(ls, more, t', script'))
    decreases |script| + 1, 1
  {
    hide SameRun, PollSteps;
    var steered := PolledMessages(ls.queues, Steering, t.beforeSteering);
    var next := AfterSteering(ls, t);
    if more || steered != [] {
      RunFromSame(next, steered, false, script, script');
      AfterSame(RunFrom(next, steered, false, script), RunFrom(next, steered, false, script'),
                PollSteps(ls.queues, Steering, t.beforeSteering), PollSteps(ls.queues, Steering, t.beforeSteering));
    } else {
      WouldStopSame(next, t, t', script, script');
      AfterSame(WouldStop(next, t, script), WouldStop(next, t', script'),
                PollSteps(ls.queues, Steering, t.beforeSteering), PollSteps(ls.queues, Steering, t.beforeSteering));
    }
  }

  lemma {:induction false} WouldStopSame(ls: Loop, t: TurnInput, t': TurnInput, script: seq<TurnInput>,
                                         script': seq<TurnInput>)
    requires SameTurn(t, t') && SameScript(script, script')
    ensures SameRun(WouldStop(ls, t, script), WouldStop(ls, t', script'))
    decreases |script| + 1, 0
  {
    hide SameRun, PollSteps, Close;
    var followed := PolledMessages(ls.queues, FollowUp, t.beforeFollowUp);
    var next := AfterFollowUp(ls, t);
    var polls := PollSteps(ls.queues, FollowUp, t.beforeFollowUp);
    if followed != [] {
      RunFromSame(next, followed, false, script, script');
      AfterSame(RunFrom(next, followed, false, script), RunFrom(next, followed, false, script'), polls, polls);
    } else {
      SameItself(Close(next));
      AfterSame(Close(next), Close(next), polls, polls);
    }
  }

  /** Over a whole run: whether batches run in parallel or one call at a time, and however
      concurrent calls interleave, the model is called with the same contexts, the same
      messages enter the transcript in the same order, the same queues are polled with the
      same answers, and the run ends in the same state. */
  lemma ExecutorsAgree(transcript: seq<Message>, queues: Queues, input: RunInput, script': seq<TurnInput>)
    requires SameScript(input.script, script')
    ensures SameRun(WholeRun(transcript, queues, input), WholeRun(transcript, queues, input.(script := script')))
  {
    hide SameRun, RunFrom;
    var context := transcript + input.prompts;
    var (polls, pending, polled) := FirstPoll(queues, input.skipFirstPoll, input.beforeStart);
    var opening := [Emit(AgentStart, context), Emit(TurnStart, context)] + PromptSteps(context, input.prompts) + polls;
    var ls := Loop(context, input.prompts, polled);
    RunFromSame(ls, pending, true, input.script, script');
    AfterSame(RunFrom(ls, pending, true, input.script), RunFrom(ls, pending, true, script'), opening, opening);
  }
}
