/** No queued message is lost, duplicated or reordered by a run. */
module QueueConservation {
  import opened Messages
  import opened Reducer
  import opened ToolBatch
  import opened LoopSpec
  import BatchTheorems

  /** The messages users enqueued during the steps, in order. */
  function Enqueued(steps: seq<Step>, name: QueueName): seq<Message> {
    if steps == [] then [] else Enqueued(steps[..|steps| - 1], name) + EnqueuedBy(steps[|steps| - 1], name)
  }

  function EnqueuedBy(step: Step, name: QueueName): seq<Message> {
    if step.UserDoes? && step.action.Enqueue? && step.action.queue == name then [step.action.message] else []
  }

  /** The messages the loop took from the queue during the steps, in order. */
  function Taken(steps: seq<Step>, name: QueueName): seq<Message> {
    if steps == [] then [] else Taken(steps[..|steps| - 1], name) + TakenBy(steps[|steps| - 1], name)
  }

  function TakenBy(step: Step, name: QueueName): seq<Message> {
    if step.Poll? && step.queue == name then step.drained else []
  }

  ghost predicate Clears(steps: seq<Step>, name: QueueName) {
    exists i | 0 <= i < |steps| :: steps[i] == UserDoes(Clear(name))
  }

  /** First in, first out: what was queued before, then what was enqueued, is what was
      taken, then what is still queued. */
  ghost predicate Conserves(before: Queues, steps: seq<Step>, after: Queues, name: QueueName) {
    !Clears(steps, name) ==>
      before.Get(name).items + Enqueued(steps, name) == Taken(steps, name) + after.Get(name).items
  }

  lemma {:induction false} EnqueuedAppend(a: seq<Step>, b: seq<Step>, name: QueueName)
    ensures Enqueued(a + b, name) == Enqueued(a, name) + Enqueued(b, name)
  {
    hide EnqueuedBy;
    if b == [] {
      assert a + b == a;
    } else {
      assert (a + b)[..|a + b| - 1] == a + b[..|b| - 1];
      EnqueuedAppend(a, b[..|b| - 1], name);
    }
  }

  lemma {:induction false} TakenAppend(a: seq<Step>, b: seq<Step>, name: QueueName)
    ensures Taken(a + b, name) == Taken(a, name) + Taken(b, name)
  {
    hide TakenBy;
    if b == [] {
      assert a + b == a;
    } else {
      assert (a + b)[..|a + b| - 1] == a + b[..|b| - 1];
      TakenAppend(a, b[..|b| - 1], name);
    }
  }

  lemma ClearsAppend(a: seq<Step>, b: seq<Step>, name: QueueName)
    ensures Clears(a + b, name) <==> Clears(a, name) || Clears(b, name)
  {
    if Clears(a, name) {
      var i :| 0 <= i < |a| && a[i] == UserDoes(Clear(name));
      assert (a + b)[i] == a[i];
    }
    if Clears(b, name) {
      var i :| 0 <= i < |b| && b[i] == UserDoes(Clear(name));
      assert (a + b)[|a| + i] == b[i];
    }
  }

  lemma ConservesAppend(q: Queues, a: seq<Step>, q': Queues, b: seq<Step>, q'': Queues, name: QueueName)
    requires Conserves(q, a, q', name) && Conserves(q', b, q'', name)
    ensures Conserves(q, a + b, q'', name)
  {
    ClearsAppend(a, b, name);
    if !Clears(a + b, name) {
      EnqueuedAppend(a, b, name);
      TakenAppend(a, b, name);
      Regroup(q.Get(name).items, Enqueued(a, name), Taken(a, name), q'.Get(name).items,
              Enqueued(b, name), Taken(b, name), q''.Get(name).items);
    }
  }

  lemma Regroup(x: seq<Message>, ea: seq<Message>, ta: seq<Message>, y: seq<Message>,
                eb: seq<Message>, tb: seq<Message>, z: seq<Message>)
    requires x + ea == ta + y && y + eb == tb + z
    ensures x + (ea + eb) == (ta + tb) + z
  {
    assert x + (ea + eb) == (x + ea) + eb == (ta + y) + eb == ta + (y + eb) == ta + (tb + z);
  }

  // ----- Steps that fit the queues

  /** A queue gives everything it holds, or one message at a time: the oldest. */
  predicate TakesByMode(queue: QueueState, drained: seq<Message>) {
    match queue.mode
    case All => drained == queue.items
    case OneAtATime => if queue.items == [] then drained == [] else drained == [queue.items[0]]
  }

  ghost predicate NoPolls(steps: seq<Step>) {
    forall i | 0 <= i < |steps| :: !steps[i].Poll?
  }

  /** Every poll takes from its queue by the mode the queue has then, but for the first one if
      that is skipped: it asks for steering messages and takes nothing. */
  ghost predicate Fits(queues: Queues, steps: seq<Step>, skip: bool := false) {
    steps == [] ||
    var init, last := steps[..|steps| - 1], steps[|steps| - 1];
    && Fits(queues, init, skip)
    && (last.Poll? ==>
          if skip && NoPolls(init) then last.queue.Steering? && last.drained == []
          else TakesByMode(QueuesAfter(queues, init).Get(last.queue), last.drained))
  }

  /** The steps fit the queues and leave them as they should. */
  ghost predicate Leaves(before: Queues, steps: seq<Step>, after: Queues, skip: bool := false) {
    Fits(before, steps, skip) && QueuesAfter(before, steps) == after
  }

  lemma {:induction false} LeavesAppend(q: Queues, a: seq<Step>, q': Queues, b: seq<Step>, q'': Queues,
                                        skip: bool := false)
    requires Leaves(q, a, q', skip) && Leaves(q', b, q'', skip && NoPolls(a))
    ensures Leaves(q, a + b, q'', skip)
    decreases |b|
  {
    hide NextQueues, TakesByMode;
    if b == [] {
      assert a + b == a;
    } else {
      var init, last := b[..|b| - 1], b[|b| - 1];
      LeavesAppend(q, a, q', init, QueuesAfter(q', init), skip);
      assert (a + b)[..|a + b| - 1] == a + init && (a + b)[|a + b| - 1] == last;
      NoPollsAppend(a, init);
    }
  }

  lemma NoPollsAppend(a: seq<Step>, b: seq<Step>)
    ensures NoPolls(a + b) <==> NoPolls(a) && NoPolls(b)
  {
    assert forall i | 0 <= i < |a| :: (a + b)[i] == a[i];
    assert forall i | 0 <= i < |b| :: (a + b)[|a| + i] == b[i];
  }

  lemma StepConserves(queues: Queues, step: Step, name: QueueName)
    requires step.Poll? ==> step.drained <= queues.Get(step.queue).items
    ensures Conserves(queues, [step], NextQueues(queues, step), name)
  {
    var steps := [step];
    assert steps[..0] == [] && steps[0] == step;
    if step.Poll? {
      var items := queues.Get(step.queue).items;
      assert items == step.drained + items[|step.drained|..];
    }
  }

  /** Steps that fit the queues lose nothing, duplicate nothing and reorder nothing. */
  lemma {:induction false} FitsConserve(queues: Queues, steps: seq<Step>, name: QueueName, skip: bool := false)
    requires Fits(queues, steps, skip)
    ensures Conserves(queues, steps, QueuesAfter(queues, steps), name)
  {
    hide NextQueues;
    if steps != [] {
      var init, last := steps[..|steps| - 1], steps[|steps| - 1];
      FitsConserve(queues, init, name, skip);
      StepConserves(QueuesAfter(queues, init), last, name);
      ConservesAppend(queues, init, QueuesAfter(queues, init), [last], QueuesAfter(queues, steps), name);
      assert steps == init + [last];
    }
  }

  lemma {:induction false} FitsPrefix(queues: Queues, steps: seq<Step>, k: nat, skip: bool := false)
    requires Fits(queues, steps, skip) && k <= |steps|
    ensures Fits(queues, steps[..k], skip)
    decreases |steps|
  {
    if k < |steps| {
      FitsPrefix(queues, steps[..|steps| - 1], k, skip);
      assert steps[..|steps| - 1][..k] == steps[..k];
    } else {
      assert steps[..k] == steps;
    }
  }

  lemma OneLeaves(queues: Queues, step: Step)
    requires step.Poll? ==> TakesByMode(queues.Get(step.queue), step.drained)
    ensures Leaves(queues, [step], NextQueues(queues, step))
  {
    assert [step][..0] == [] && [step][0] == step;
    assert Fits(queues, []) && QueuesAfter(queues, []) == queues;
  }

  // ----- Users and polls

  lemma {:induction false} ActionsLeave(queues: Queues, actions: seq<UserAction>)
    ensures Leaves(queues, ActionSteps(actions), ActAll(queues, actions))
    decreases |actions|
  {
    if actions != [] {
      var first, later := actions[0], actions[1..];
      OneLeaves(queues, UserDoes(first));
      ActionsLeave(Act(queues, first), later);
      LeavesAppend(queues, [UserDoes(first)], Act(queues, first), ActionSteps(later), ActAll(queues, actions));
    }
  }

  lemma PollStepsLeave(queues: Queues, polled: QueueName, actions: seq<UserAction>)
    ensures Leaves(queues, PollSteps(queues, polled, actions), AfterPoll(queues, polled, actions))
  {
    var acted := ActAll(queues, actions);
    var poll := Poll(polled, Drained(acted.Get(polled)));
    ActionsLeave(queues, actions);
    OneLeaves(acted, poll);
    LeavesAppend(queues, ActionSteps(actions), acted, [poll], AfterPoll(queues, polled, actions));
  }

  lemma FirstPollLeaves(queues: Queues, skip: bool, actions: seq<UserAction>)
    ensures var (polls, _, after) := FirstPoll(queues, skip, actions);
            Leaves(queues, polls, after, skip)
  {
    if skip {
      var acted := ActAll(queues, actions);
      ActionsLeaveAlways(queues, actions, true);
      ActionsNoPolls(actions);
      SkippedLeaves(acted);
      LeavesAppend(queues, ActionSteps(actions), acted, [Poll(Steering, [])], acted, true);
    } else {
      PollStepsLeave(queues, Steering, actions);
    }
  }

  lemma {:induction false} ActionsNoPolls(actions: seq<UserAction>)
    ensures NoPolls(ActionSteps(actions))
  {
    if actions != [] {
      ActionsNoPolls(actions[1..]);
    }
  }

  lemma SkippedLeaves(queues: Queues)
    ensures Leaves(queues, [Poll(Steering, [])], queues, true)
  {
    var step := Poll(Steering, []);
    assert [step][..0] == [] && [step][0] == step;
    assert Fits(queues, [], true) && QueuesAfter(queues, []) == queues;
    assert NextQueues(queues, step) == queues;
  }

  /** Without a poll there is nothing to skip. */
  lemma {:induction false} LeavesSkip(queues: Queues, steps: seq<Step>, after: Queues)
    requires Leaves(queues, steps, after) && NoPolls(steps)
    ensures Leaves(queues, steps, after, true)
  {
    if steps != [] {
      var init := steps[..|steps| - 1];
      LeavesSkip(queues, init, QueuesAfter(queues, init));
    }
  }

  lemma ActionsLeaveAlways(queues: Queues, actions: seq<UserAction>, skip: bool)
    ensures Leaves(queues, ActionSteps(actions), ActAll(queues, actions), skip)
  {
    ActionsLeave(queues, actions);
    ActionsNoPolls(actions);
    LeavesSkip(queues, ActionSteps(actions), ActAll(queues, actions));
  }

  // ----- Everything else leaves the queues alone

  predicate TouchesQueue(step: Step) {
    step.UserDoes? || step.Poll?
  }

  ghost predicate Quiet(steps: seq<Step>) {
    forall i | 0 <= i < |steps| :: !TouchesQueue(steps[i])
  }

  lemma {:induction false} QuietLeaves(queues: Queues, steps: seq<Step>, skip: bool := false)
    requires Quiet(steps)
    ensures Leaves(queues, steps, queues, skip) && NoPolls(steps)
  {
    if steps != [] {
      QuietLeaves(queues, steps[..|steps| - 1], skip);
    }
  }

  lemma {:induction false} InjectQuiet(context: seq<Message>, messages: seq<Message>)
    ensures Quiet(InjectSteps(context, messages))
    decreases |messages|
  {
    if messages != [] {
      InjectQuiet(context + [messages[0]], messages[1..]);
    }
  }

  lemma {:induction false} PromptsQuiet(context: seq<Message>, prompts: seq<Message>)
    ensures Quiet(PromptSteps(context, prompts))
  {
    if prompts != [] {
      PromptsQuiet(context, prompts[1..]);
    }
  }

  lemma {:induction false} StreamQuiet(context: seq<Message>, added: bool, response: Response)
    requires added ==> context != []
    ensures Quiet(StreamSteps(context, added, response))
    decreases |response.events|
  {
    var events := response.events;
    if events != [] && !events[0].Terminal? {
      var rest := response.(events := events[1..]);
      match events[0]
      case Start(partial) => StreamQuiet(context + [Assistant(partial)], true, rest);
      case Delta(partial) =>
        StreamQuiet(if added then ReplaceLast(context, Assistant(partial)) else context, added, rest);
    }
  }

  lemma BatchQuiet(b: Batch, schedule: seq<nat>)
    ensures Quiet(BatchSteps(b, schedule))
  {
    forall i | 0 <= i < |BatchSteps(b, schedule)| ensures !TouchesQueue(BatchSteps(b, schedule)[i]) {
      BatchTheorems.BatchKinds(b, schedule, i);
    }
  }

  lemma TurnQuiet(ls: Loop, pending: seq<Message>, first: bool, t: TurnInput)
    ensures Quiet(TurnSteps(ls, pending, first, t))
  {
    var asked := ls.context + pending;
    PartsQuiet(ls.context, pending, first, asked, t);
    hide AskSteps, AnswerSteps, ActSteps, AfterTurn, TurnResults, Quiet;
    QuietAppend(AskSteps(ls.context, pending, first), AnswerSteps(asked, t));
    QuietAppend(AskSteps(ls.context, pending, first) + AnswerSteps(asked, t), ActSteps(asked, t));
    var end := TurnEndStep(ls, pending, t);
    OneQuiet(end);
    QuietAppend(AskSteps(ls.context, pending, first) + AnswerSteps(asked, t) + ActSteps(asked, t), [end]);
  }

  lemma PartsQuiet(context: seq<Message>, pending: seq<Message>, first: bool, asked: seq<Message>, t: TurnInput)
    ensures Quiet(AskSteps(context, pending, first)) && Quiet(AnswerSteps(asked, t)) && Quiet(ActSteps(asked, t))
  {
    InjectQuiet(context, pending);
    StreamQuiet(asked, false, t.response);
    BatchQuiet(TurnBatch(asked, t), t.schedule);
    hide InjectSteps, StreamSteps, BatchSteps, TurnBatch;
  }

  lemma OneQuiet(step: Step)
    requires !TouchesQueue(step)
    ensures Quiet([step])
  {
  }

  lemma QuietAppend(a: seq<Step>, b: seq<Step>)
    requires Quiet(a) && Quiet(b)
    ensures Quiet(a + b)
  {
  }

  // ----- Runs

  ghost predicate RunLeaves(queues: Queues, run: Run, skip: bool := false) {
    Leaves(queues, run.steps, run.end.queues, skip)
  }

  lemma AfterLeaves(q: Queues, steps: seq<Step>, q': Queues, run: Run, skip: bool := false)
    requires Leaves(q, steps, q', skip) && RunLeaves(q', run, skip && NoPolls(steps))
    ensures RunLeaves(q, run.After(steps), skip)
  {
    hide Leaves;
    LeavesAppend(q, steps, q', run.steps, run.end.queues, skip);
  }

  lemma OpeningPolls(opening: seq<Step>, queues: Queues, skip: bool, actions: seq<UserAction>)
    ensures !NoPolls(opening + FirstPoll(queues, skip, actions).0)
  {
    var steps := opening + FirstPoll(queues, skip, actions).0;
    assert steps[|steps| - 1].Poll?;
  }

  lemma CloseLeaves(ls: Loop)
    ensures RunLeaves(ls.queues, Close(ls))
  {
    QuietLeaves(ls.queues, Close(ls).steps);
  }

  lemma {:induction false} RunFromLeaves(ls: Loop, pending: seq<Message>, first: bool, script: seq<TurnInput>)
    ensures RunLeaves(ls.queues, RunFrom(ls, pending, first, script))
    decreases |script|
  {
    if script == [] {
      QuietLeaves(ls.queues, []);
    } else {
      hide Leaves, RunLeaves, TurnSteps;
      var t := script[0];
      var rest := AfterResponse(ls, pending, t, script[1..]);
      TurnQuiet(ls, pending, first, t);
      QuietLeaves(ls.queues, TurnSteps(ls, pending, first, t));
      AfterResponseLeaves(ls, pending, t, script[1..]);
      AfterLeaves(ls.queues, TurnSteps(ls, pending, first, t), ls.queues, rest);
    }
  }

  lemma {:induction false} AfterResponseLeaves(ls: Loop, pending: seq<Message>, t: TurnInput, script: seq<TurnInput>)
    ensures RunLeaves(ls.queues, AfterResponse(ls, pending, t, script))
    decreases |script| + 1, 2
  {
    var end := AfterTurn(ls, pending, t);
    if Failed(t.response.final) {
      CloseLeaves(end);
    } else {
      var more := Demands(ls.context + pending, t);
      var hooked := AfterPrepare(end, t);
      var hooks := HookSteps(end, t, more);
      QuietLeaves(ls.queues, hooks);
      hide Leaves, RunLeaves, HookSteps, Demands;
      if t.stop {
        CloseLeaves(hooked);
        AfterLeaves(ls.queues, hooks, ls.queues, Close(hooked));
      } else {
        AfterStopLeaves(hooked, more, t, script);
        AfterLeaves(ls.queues, hooks, ls.queues, AfterStop(hooked, more, t, script));
      }
    }
  }

  lemma {:induction false} AfterStopLeaves(ls: Loop, more: bool, t: TurnInput, script: seq<TurnInput>)
    ensures RunLeaves(ls.queues, AfterStop(ls, more, t, script))
    decreases |script| + 1, 1
  {
    hide Leaves, RunLeaves, PollSteps;
    var steered := PolledMessages(ls.queues, Steering, t.beforeSteering);
    var next := AfterSteering(ls, t);
    var polls := PollSteps(ls.queues, Steering, t.beforeSteering);
    PollStepsLeave(ls.queues, Steering, t.beforeSteering);
    if more || steered != [] {
      RunFromLeaves(next, steered, false, script);
      AfterLeaves(ls.queues, polls, next.queues, RunFrom(next, steered, false, script));
    } else {
      WouldStopLeaves(next, t, script);
      AfterLeaves(ls.queues, polls, next.queues, WouldStop(next, t, script));
    }
  }

  lemma {:induction false} WouldStopLeaves(ls: Loop, t: TurnInput, script: seq<TurnInput>)
    ensures RunLeaves(ls.queues, WouldStop(ls, t, script))
    decreases |script| + 1, 0
  {
    hide Leaves, RunLeaves, PollSteps;
    var followed := PolledMessages(ls.queues, FollowUp, t.beforeFollowUp);
    var next := AfterFollowUp(ls, t);
    var polls := PollSteps(ls.queues, FollowUp, t.beforeFollowUp);
    PollStepsLeave(ls.queues, FollowUp, t.beforeFollowUp);
    if followed != [] {
      RunFromLeaves(next, followed, false, script);
      AfterLeaves(ls.queues, polls, next.queues, RunFrom(next, followed, false, script));
    } else {
      CloseLeaves(next);
      AfterLeaves(ls.queues, polls, next.queues, Close(next));
    }
  }

  lemma WholeRunLeaves(transcript: seq<Message>, queues: Queues, input: RunInput)
    ensures RunLeaves(queues, WholeRun(transcript, queues, input), input.skipFirstPoll)
  {
    var skip := input.skipFirstPoll;
    var context := transcript + input.prompts;
    var (polls, pending, polled) := FirstPoll(queues, input.skipFirstPoll, input.beforeStart);
    var opening := [Emit(AgentStart, context), Emit(TurnStart, context)] + PromptSteps(context, input.prompts);
    var ls := Loop(context, input.prompts, polled);
    PromptsQuiet(context, input.prompts);
    QuietLeaves(queues, opening, skip);
    FirstPollLeaves(queues, skip, input.beforeStart);
    OpeningPolls(opening, queues, skip, input.beforeStart);
    hide Leaves, RunLeaves, RunFrom, PromptSteps, FirstPoll, NoPolls;
    LeavesAppend(queues, opening, queues, polls, polled, skip);
    RunFromLeaves(ls, pending, true, input.script);
    AfterLeaves(queues, opening + polls, polled, RunFrom(ls, pending, true, input.script), skip);
  }

  /** Each queue, at every point of a run with any modes, mode changes and enqueues, and no
      clear: everything that was or came to be queued is taken once, in order, or still
      queued. At the end of the run, what is still queued is what its end says. */
  lemma QueueConserved(transcript: seq<Message>, queues: Queues, input: RunInput, name: QueueName, k: nat)
    requires k <= |WholeRun(transcript, queues, input).steps|
    ensures var run := WholeRun(transcript, queues, input);
            && (!Clears(run.steps[..k], name) ==>
                  queues.Get(name).items + Enqueued(run.steps[..k], name)
                  == Taken(run.steps[..k], name) + QueuesAfter(queues, run.steps[..k]).Get(name).items)
            && QueuesAfter(queues, run.steps) == run.end.queues
  {
    hide WholeRun, Fits;
    var run := WholeRun(transcript, queues, input);
    WholeRunLeaves(transcript, queues, input);
    FitsPrefix(queues, run.steps, k, input.skipFirstPoll);
    FitsConserve(queues, run.steps[..k], name, input.skipFirstPoll);
  }

  /** What each poll of a run takes: everything or the oldest message, by the mode its queue
      has then; nothing at the first one exactly if that is to be skipped or there is nothing. */
  lemma PollsByMode(transcript: seq<Message>, queues: Queues, input: RunInput, k: nat)
    requires k < |WholeRun(transcript, queues, input).steps| && WholeRun(transcript, queues, input).steps[k].Poll?
    ensures var steps := WholeRun(transcript, queues, input).steps;
            if input.skipFirstPoll && NoPolls(steps[..k]) then steps[k] == Poll(Steering, [])
            else TakesByMode(QueuesAfter(queues, steps[..k]).Get(steps[k].queue), steps[k].drained)
  {
    hide WholeRun, TakesByMode, QueuesAfter;
    var run := WholeRun(transcript, queues, input);
    WholeRunLeaves(transcript, queues, input);
    FitsPrefix(queues, run.steps, k + 1, input.skipFirstPoll);
    assert run.steps[..k + 1][..k] == run.steps[..k];
  }
}
