/** What a run that throws can lose: messages it was given and has not announced yet. */
module QueueLoss {
  import opened Messages
  import opened Reducer
  import opened LoopSpec
  import opened Watching
  import opened LoopSafety
  import opened QueueConservation
  import opened RunInvariants
  import opened RunGuarantees

  /** Every prompt and every message taken from a queue has been injected, as often as it
      was given. */
  ghost predicate NothingLost(prompts: seq<Message>, steps: seq<Step>) {
    multiset(prompts) + multiset(Taken(steps, Steering)) + multiset(Taken(steps, FollowUp))
    <= multiset(Summarize(steps).injected)
  }

  lemma {:induction false} PolledIsTaken(steps: seq<Step>)
    ensures multiset(Summarize(steps).polled) == multiset(Taken(steps, Steering)) + multiset(Taken(steps, FollowUp))
  {
    if steps != [] {
      hide Count;
      PolledIsTaken(steps[..|steps| - 1]);
      CountPolled(Summarize(steps[..|steps| - 1]), steps[|steps| - 1]);
    }
  }

  lemma PrefixOfAll(front: seq<Message>, all: seq<Message>)
    requires front <= all
    ensures multiset(all) <= multiset(front) <==> front == all
  {
    assert all == front + all[|front|..];
    if multiset(all) <= multiset(front) {
      assert |multiset(all)| == |multiset(front)| + |multiset(all[|front|..])|;
      MultisetSize(multiset(all), multiset(front));
    }
  }

  lemma MultisetSize(a: multiset<Message>, b: multiset<Message>)
    requires a <= b
    ensures |a| <= |b|
  {
    assert b == a + (b - a);
  }

  /** Nothing is lost as long as what was injected is all that was given. */
  lemma LossIsUninjected(agent: AgentState, prompts: seq<Message>, steps: seq<Step>)
    requires Obeys(agent, prompts, steps)
    ensures NothingLost(prompts, steps) <==> Summarize(steps).injected == prompts + Summarize(steps).polled
  {
    hide Obeys;
    var injected, given := Summarize(steps).injected, prompts + Summarize(steps).polled;
    assert steps[..|steps|] == steps;
    PolledIsInjected(agent, prompts, steps, |steps|);
    PolledIsTaken(steps);
    PrefixOfAll(injected, given);
  }

  // ----- Counting ended messages

  /** The number of steps up to and including the latest poll that took something; none if
      no poll has. */
  function LatestTake(steps: seq<Step>): (n: nat)
    ensures n <= |steps|
    ensures n > 0 ==> steps[n - 1].Poll? && steps[n - 1].drained != []
    ensures forall i | n <= i < |steps| :: steps[i].Poll? ==> steps[i].drained == []
  {
    if steps == [] then 0
    else
      var last := steps[|steps| - 1];
      if last.Poll? && last.drained != [] then |steps| else LatestTake(steps[..|steps| - 1])
  }

  /** How many messages the run was given last: by that poll, or as its prompts. */
  function GivenLast(prompts: seq<Message>, steps: seq<Step>): nat {
    var n := LatestTake(steps);
    if n == 0 then |prompts| else |steps[n - 1].drained|
  }

  /** How many messages have ended since then. */
  function EndedSince(steps: seq<Step>): int {
    Summarize(steps).messageEnds - Summarize(steps[..LatestTake(steps)]).messageEnds
  }

  /** How many more would have to end for all of what was given last. */
  function Missing(prompts: seq<Message>, steps: seq<Step>): int {
    var given, ended := GivenLast(prompts, steps), EndedSince(steps);
    if ended < given then given - ended else 0
  }

  /** While something given is not injected, no response has begun. */
  ghost predicate OnlyAsks(w: Watcher) {
    w.queue.injected != Given(w) ==> w.phase.Before? || w.phase.Between? || w.phase.Asking? || w.phase.AskBracket?
  }

  lemma OnlyAsksStep(w: Watcher, step: Step)
    requires InjectSound(w) && OnlyAsks(w) && Acceptable(w, step)
    ensures OnlyAsks(Observe(w, step))
  {
    hide ToolRule, ContextRule, WatchTools, ReduceStep, NextContext;
    if !step.Poll? {
      assert Given(Observe(w, step)) == Given(w);
    }
  }

  /** What is owed: the messages given and not yet injected. */
  ghost function Owed(w: Watcher): int {
    |Given(w)| - |w.queue.injected|
  }

  predicate EndsMessage(step: Step) {
    step.Emit? && step.event.MessageEnd?
  }

  lemma EndsCounted(s: Summary, step: Step)
    ensures Count(s, step).messageEnds == s.messageEnds + if EndsMessage(step) then 1 else 0
  {
  }

  /** How one step changes what is owed: a poll adds what it takes, and the end of a message
      takes one off as long as something is owed. */
  lemma OwedStep(w: Watcher, step: Step)
    requires InjectSound(w) && OnlyAsks(w) && Acceptable(w, step)
    ensures var owed := Owed(w);
            && (step.Poll? ==> owed == 0)
            && Owed(Observe(w, step)) ==
                 if step.Poll? then |step.drained|
                 else if EndsMessage(step) && owed > 0 then owed - 1
                 else owed
  {
    hide ToolRule, ContextRule, WatchTools, ReduceStep, NextContext;
    if step.Poll? {
      assert Given(Observe(w, step)) == Given(w) + step.drained;
    } else {
      assert Given(Observe(w, step)) == Given(w);
    }
  }

  /** What is owed is what was given last, less the messages that have ended since. */
  lemma {:induction false} OwedAt(agent: AgentState, prompts: seq<Message>, steps: seq<Step>)
    requires Obeys(agent, prompts, steps)
    ensures var w := At(agent, prompts, steps, |steps|);
            && OnlyAsks(w)
            && Owed(w) == Missing(prompts, steps)
    decreases |steps|
  {
    hide Obeys, Acceptable, Observe, Sound, Agrees, OnlyAsks, Owed, Count;
    if steps == [] {
      NothingOwed(agent, prompts, steps);
    } else {
      var n := |steps| - 1;
      ObeysPrefix(agent, prompts, steps, n);
      OwedAt(agent, prompts, steps[..n]);
      OwedNext(agent, prompts, steps);
    }
  }

  lemma NothingOwed(agent: AgentState, prompts: seq<Message>, steps: seq<Step>)
    requires steps == []
    ensures var w := At(agent, prompts, steps, |steps|);
            OnlyAsks(w) && Owed(w) == |prompts| == GivenLast(prompts, steps) && EndedSince(steps) == 0
  {
    assert prompts + [] == prompts;
  }

  lemma OwedNext(agent: AgentState, prompts: seq<Message>, steps: seq<Step>)
    requires Obeys(agent, prompts, steps) && steps != []
    requires var init := steps[..|steps| - 1];
             var w := At(agent, prompts, init, |init|);
             && OnlyAsks(w)
             && Owed(w) == Missing(prompts, init)
    ensures var w := At(agent, prompts, steps, |steps|);
            && OnlyAsks(w)
            && Owed(w) == Missing(prompts, steps)
  {
    hide Obeys, Acceptable, Observe, Agrees, OnlyAsks, Owed, Count, PendingSound, ToolsSound, PairingSound;
    var n := |steps| - 1;
    var init, last := steps[..n], steps[n];
    assert init[..n] == init && steps[..n + 1] == steps;
    var w := Known(agent, prompts, steps, n);
    NextAt(NewWatcher(agent, prompts), steps, n);
    OnlyAsksStep(w, last);
    OwedStep(w, last);
    EndsCounted(Summarize(init), last);
    if !(last.Poll? && last.drained != []) {
      var from := LatestTake(init);
      assert steps[..from] == init[..from];
    }
  }

  lemma OwedIsUninjected(w: Watcher)
    requires InjectSound(w)
    ensures Owed(w) == 0 <==> w.queue.injected == Given(w)
  {
  }

  /** However far a run gets before it throws, nothing it was given is lost exactly if at least
      as many messages have ended as it was given last: since the latest poll that took
      something, or, before any such poll, of its prompts. */
  lemma LossExact(agent: AgentState, prompts: seq<Message>, steps: seq<Step>)
    requires Obeys(agent, prompts, steps)
    ensures NothingLost(prompts, steps) <==> EndedSince(steps) >= GivenLast(prompts, steps)
  {
    LossIsUninjected(agent, prompts, steps);
    OwedAt(agent, prompts, steps);
    var w := Known(agent, prompts, steps, |steps|);
    OwedIsUninjected(w);
    assert steps[..|steps|] == steps;
    hide Obeys, NothingLost, EndedSince, GivenLast, Summarize;
  }

  lemma CountInjected(s: Summary, step: Step)
    ensures s.injected <= Count(s, step).injected
  {
  }

  lemma {:induction false} InjectedGrows(steps: seq<Step>, k: nat)
    requires k <= |steps|
    ensures Summarize(steps[..k]).injected <= Summarize(steps).injected
    decreases |steps|
  {
    hide Count;
    if k < |steps| {
      var init := steps[..|steps| - 1];
      InjectedGrows(init, k);
      assert init[..k] == steps[..k];
      CountInjected(Summarize(init), steps[|steps| - 1]);
    } else {
      assert steps[..k] == steps;
    }
  }

  /** What is lost was taken by the latest poll: all that was given before is injected. */
  lemma LossFromLatestPoll(agent: AgentState, prompts: seq<Message>, steps: seq<Step>, k: nat)
    requires Obeys(agent, prompts, steps) && k < |steps| && steps[k].Poll?
    ensures prompts + Summarize(steps[..k]).polled <= Summarize(steps).injected
  {
    hide Obeys;
    PolledIsInjected(agent, prompts, steps, k);
    InjectedGrows(steps, k);
  }

  // ----- A run that loses a message

  /** A throw between a poll that took something and the end of the first message it took
      loses messages, for instance when a listener throws on the `turn_start` after it. */
  lemma ThrowAfterPoll(agent: AgentState, prompts: seq<Message>, steps: seq<Step>, k: nat)
    requires Obeys(agent, prompts, steps) && k + 1 < |steps|
    requires steps[k].Poll? && steps[k].drained != [] && Is(steps[k + 1], TurnStart)
    ensures !NothingLost(prompts, steps[..k + 2])
  {
    var cut := steps[..k + 2];
    PolledIsInjected(agent, prompts, steps, k);
    ObeysPrefix(agent, prompts, steps, k + 2);
    LossIsUninjected(agent, prompts, cut);
    hide Obeys;
    SummaryAt(steps, k);
    SummaryAt(steps, k + 1);
  }

  lemma SummaryAt(steps: seq<Step>, k: nat)
    requires k < |steps|
    ensures Summarize(steps[..k + 1]) == Count(Summarize(steps[..k]), steps[k])
  {
    assert steps[..k + 1][..k] == steps[..k];
  }

  /** A first turn that ends well, without a stop, while the user steers with one message. */
  ghost predicate Steers(queues: Queues, input: RunInput, m: Message) {
    && |input.script| == 2 && queues.steering.items == [] && input.beforeStart == []
    && var t := input.script[0];
       !Failed(t.response.final) && !t.stop && t.beforeSteering == [Enqueue(Steering, m)]
  }

  lemma OpeningSteps(transcript: seq<Message>, queues: Queues, input: RunInput, m: Message)
    returns (opening: seq<Step>, ls: Loop)
    requires Steers(queues, input, m)
    ensures WholeRun(transcript, queues, input) == RunFrom(ls, [], true, input.script).After(opening)
    ensures Leaves(queues, opening, ls.queues, input.skipFirstPoll) && !NoPolls(opening)
    ensures ls.queues.steering.items == []
  {
    var context := transcript + input.prompts;
    var (polls, pending, polled) := FirstPoll(queues, input.skipFirstPoll, input.beforeStart);
    var announced := [Emit(AgentStart, context), Emit(TurnStart, context)] + PromptSteps(context, input.prompts);
    assert pending == [] && polled.steering.items == [];
    PromptsQuiet(context, input.prompts);
    QuietLeaves(queues, announced, input.skipFirstPoll);
    FirstPollLeaves(queues, input.skipFirstPoll, input.beforeStart);
    OpeningPolls(announced, queues, input.skipFirstPoll, input.beforeStart);
    hide Leaves, RunFrom, PromptSteps, FirstPoll, NoPolls;
    LeavesAppend(queues, announced, queues, polls, polled, input.skipFirstPoll);
    opening, ls := announced + polls, Loop(context, input.prompts, polled);
  }

  lemma SteeringPoll(queues: Queues, m: Message)
    requires queues.steering.items == []
    ensures PollSteps(queues, Steering, [Enqueue(Steering, m)]) ==
      [UserDoes(Enqueue(Steering, m))] + [Poll(Steering, [m])]
    ensures PolledMessages(queues, Steering, [Enqueue(Steering, m)]) == [m]
    ensures AfterPoll(queues, Steering, [Enqueue(Steering, m)]).steering.items == []
  {
    var action := Enqueue(Steering, m);
    var actions := [action];
    assert actions[1..] == [] && actions[0] == action;
    assert ActionSteps(actions) == [UserDoes(action)] + ActionSteps(actions[1..]) == [UserDoes(action)];
    assert ActAll(queues, actions) == ActAll(Act(queues, action), actions[1..]) == Act(queues, action);
    assert Act(queues, action).steering.items == [m] && [m][..1] == [m];
    assert PolledMessages(queues, Steering, actions) == [m];
  }

  /** The steps of a first turn up to the steering poll after it, and what comes next. */
  lemma FirstTurnSteps(ls: Loop, script: seq<TurnInput>, m: Message) returns (turn: seq<Step>, next: Loop)
    requires |script| == 2 && ls.queues.steering.items == []
    requires var t := script[0]; !Failed(t.response.final) && !t.stop && t.beforeSteering == [Enqueue(Steering, m)]
    ensures RunFrom(ls, [], true, script) ==
            RunFrom(next, [m], false, script[1..])
            .After(turn + [UserDoes(Enqueue(Steering, m))] + [Poll(Steering, [m])])
    ensures Leaves(ls.queues, turn + [UserDoes(Enqueue(Steering, m))] + [Poll(Steering, [m])], next.queues)
    ensures next.queues.steering.items == []
  {
    var t, later := script[0], script[1..];
    var end, more := AfterTurn(ls, [], t), Demands(ls.context + [], t);
    var hooked := AfterPrepare(end, t);
    var steps, hooks := TurnSteps(ls, [], true, t), HookSteps(end, t, more);
    var polls := PollSteps(ls.queues, Steering, t.beforeSteering);
    turn, next := steps + hooks, AfterSteering(hooked, t);
    SteeringPoll(ls.queues, m);
    TurnQuiet(ls, [], true, t);
    QuietLeaves(ls.queues, steps);
    QuietLeaves(ls.queues, hooks);
    PollStepsLeave(ls.queues, Steering, t.beforeSteering);
    hide Leaves, TurnSteps, HookSteps, PollSteps, Demands, RunFrom;
    LeavesAppend(ls.queues, steps, ls.queues, hooks, ls.queues);
    LeavesAppend(ls.queues, turn, ls.queues, polls, next.queues);
    assert AfterStop(hooked, more, t, later) == RunFrom(next, [m], false, later).After(polls);
    assert AfterResponse(ls, [], t, later) == AfterStop(hooked, more, t, later).After(hooks);
    Unrolled(ls, script);
    var run := RunFrom(next, [m], false, later);
    Grouped(steps, hooks, polls, run.steps);
    assert turn + polls == turn + [UserDoes(Enqueue(Steering, m))] + [Poll(Steering, [m])];
  }

  lemma Unrolled(ls: Loop, script: seq<TurnInput>)
    requires script != []
    ensures RunFrom(ls, [], true, script) ==
            AfterResponse(ls, [], script[0], script[1..]).After(TurnSteps(ls, [], true, script[0]))
  {
  }

  lemma Grouped(a: seq<Step>, b: seq<Step>, c: seq<Step>, d: seq<Step>)
    ensures a + (b + (c + d)) == a + b + c + d
  {
  }

  lemma SecondTurnStarts(next: Loop, m: Message, script: seq<TurnInput>) returns (rest: seq<Step>)
    requires |script| == 1
    ensures RunFrom(next, [m], false, script).steps == [Emit(TurnStart, next.context)] + rest
  {
    var t := script[0];
    var steps := TurnSteps(next, [m], false, t);
    assert steps[0] == Emit(TurnStart, next.context);
    rest := RunFrom(next, [m], false, script).steps[1..];
  }

  /** A listener that throws on the `turn_start` after a steering poll: the message the user
      steered with is in no queue any more, and not in the transcript either. */
  lemma SteeredRunLoses(agent: AgentState, queues: Queues, input: RunInput, m: Message) returns (k: nat)
    requires Idle(agent) && WellStreamed(input.script) && Steers(queues, input, m)
    ensures var steps := WholeRun(agent.messages, queues, input).steps;
            && k + 1 < |steps| && steps[k] == Poll(Steering, [m]) && Is(steps[k + 1], TurnStart)
            && !NothingLost(input.prompts, steps[..k + 2])
            && QueuesAfter(queues, steps[..k + 2]).steering.items == []
  {
    hide WholeRun, RunFrom, Leaves, Obeys, NothingLost;
    var opening, ls := OpeningSteps(agent.messages, queues, input, m);
    var turn, next := FirstTurnSteps(ls, input.script, m);
    var rest := SecondTurnStarts(next, m, input.script[1..]);
    var steps := WholeRun(agent.messages, queues, input).steps;
    var before, poll := opening + (turn + [UserDoes(Enqueue(Steering, m))]), Poll(Steering, [m]);
    assert steps == before + [poll] + [Emit(TurnStart, next.context)] + rest;
    k := |before|;
    EveryRunObeys(agent, queues, input);
    ThrowAfterPoll(agent, input.prompts, steps, k);
    LeavesAppend(queues, opening, ls.queues, turn + [UserDoes(Enqueue(Steering, m))] + [poll], next.queues,
                 input.skipFirstPoll);
    assert opening + (turn + [UserDoes(Enqueue(Steering, m))] + [poll]) == steps[..k + 1];
    StartLeaves(queues, steps, k + 1, next.queues, input.skipFirstPoll);
  }

  lemma StartLeaves(queues: Queues, steps: seq<Step>, k: nat, after: Queues, skip: bool)
    requires k < |steps| && Leaves(queues, steps[..k], after, skip) && Is(steps[k], TurnStart)
    ensures QueuesAfter(queues, steps[..k + 1]) == after
  {
    assert steps[..k + 1][..k] == steps[..k];
  }
}
