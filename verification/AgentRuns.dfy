/** Prompting and continuing an agent: the life of one run, whatever becomes of it. */
module AgentRuns {
  import opened Messages
  import opened Reducer
  import opened LoopSpec
  import opened AgentCore
  import opened AgentLoop
  import opened LoopSafety
  import opened RunGuarantees
  import opened QueueConservation
  import opened QueueLoss

  /** `rethrown` says that listeners threw on the failure events themselves. */
  datatype RunOutcome = Refused | Completed | Failed(failure: Message, rethrown: bool)

  /** How and when the world fails a run: after how many steps it throws, with what text,
      and which of the events reporting the failure a listener refuses, if any. `meanwhile`
      is what users do between the latest poll and the end of the run. */
  datatype Trouble = Trouble(patience: nat, meanwhile: seq<UserAction>, reason: string, refused: Option<nat>)

  /** The steps a run gets to take. */
  ghost function Reached(run: Run, patience: nat): (steps: seq<Step>)
    ensures steps <= run.steps
  {
    if patience <= |run.steps| then run.steps[..patience] else run.steps
  }

  /** What happens during a run: its steps and what users do after its latest poll. */
  ghost function Lived(run: Run, trouble: Trouble): seq<Step> {
    Reached(run, trouble.patience) + ActionSteps(trouble.meanwhile)
  }

  /** What a run gets to do, cut or not, obeys all rules of a run: every guarantee stated for
      the steps of a run holds up to the point where the world throws. */
  lemma ReachedObeys(agent: AgentState, queues: Queues, input: RunInput, patience: nat)
    requires Idle(agent) && WellStreamed(input.script)
    ensures Obeys(agent, input.prompts, Reached(WholeRun(agent.messages, queues, input), patience))
  {
    hide WholeRun, Obeys;
    var run := WholeRun(agent.messages, queues, input);
    EveryRunObeys(agent, queues, input);
    if patience <= |run.steps| {
      ObeysPrefix(agent, input.prompts, run.steps, patience);
    }
  }

  /** Of what a run that throws was given, its prompts and what it took from the queues,
      nothing is lost exactly if at least as many messages have ended as it was given last. */
  lemma ThrownRunLoss(agent: AgentState, queues: Queues, input: RunInput, patience: nat)
    requires Idle(agent) && WellStreamed(input.script)
    ensures var steps := Reached(WholeRun(agent.messages, queues, input), patience);
            NothingLost(input.prompts, steps) <==> EndedSince(steps) >= GivenLast(input.prompts, steps)
  {
    hide WholeRun, Obeys, NothingLost, EndedSince, GivenLast;
    ReachedObeys(agent, queues, input, patience);
    LossExact(agent, input.prompts, Reached(WholeRun(agent.messages, queues, input), patience));
  }

  /** What happens during a run conserves both queues, cut or not. */
  lemma LivedConserves(transcript: seq<Message>, queues: Queues, input: RunInput, trouble: Trouble)
    ensures var run := WholeRun(transcript, queues, input);
            var steps := Lived(run, trouble);
            && Conserves(queues, steps, QueuesAfter(queues, steps), Steering)
            && Conserves(queues, steps, QueuesAfter(queues, steps), FollowUp)
            && QueuesAfter(queues, steps) ==
              ActAll(QueuesAfter(queues, Reached(run, trouble.patience)), trouble.meanwhile)
            && QueuesAfter(queues, run.steps) == run.end.queues
  {
    hide WholeRun, Fits, Conserves;
    var run := WholeRun(transcript, queues, input);
    WholeRunLeaves(transcript, queues, input);
    if trouble.patience <= |run.steps| {
      FitsPrefix(queues, run.steps, trouble.patience, input.skipFirstPoll);
    }
    var reached := Reached(run, trouble.patience);
    var left := QueuesAfter(queues, reached);
    var skip := input.skipFirstPoll;
    ActionsLeaveAlways(left, trouble.meanwhile, skip && NoPolls(reached));
    LeavesAppend(queues, reached, left, ActionSteps(trouble.meanwhile), ActAll(left, trouble.meanwhile), skip);
    FitsConserve(queues, Lived(run, trouble), Steering, skip);
    FitsConserve(queues, Lived(run, trouble), FollowUp, skip);
  }

  /** What a failure message says: what was thrown, and whether the run had been aborted. */
  predicate Reports(failure: Message, reason: string, aborted: bool) {
    && failure.Assistant?
    && failure.body.content == [Text("")] && failure.body.errorMessage == Some(reason)
    && failure.body.stopReason == if aborted then StopReason.Aborted else StopReason.Error
  }

  lemma {:induction false} AbortsExact(steps: seq<Step>)
    ensures Aborts(steps) <==> exists i | 0 <= i < |steps| :: steps[i] == UserDoes(Abort)
  {
    if steps != [] {
      AbortsExact(steps[..|steps| - 1]);
    }
  }

  lemma FailureReports(steps: seq<Step>, reason: string)
    ensures Reports(FailureMessage(Aborts(steps), reason), reason, exists i | 0 <= i < |steps| ::
                    steps[i] == UserDoes(Abort))
    ensures FailureMessage(Aborts(steps), reason).Assistant?
    ensures FailureMessage(Aborts(steps), reason).body.errorMessage == Some(reason)
  {
    AbortsExact(steps);
  }

  /** A run that is not cut leaves behind exactly what it committed; one that is cut, a
      prefix of that and one failure message. Either way the queues are what its steps made
      of them, and every queued message was taken once, in order, or is still queued. */
  ghost predicate Settled(before: AgentState, queues: Queues, input: RunInput, trouble: Trouble,
                          outcome: RunOutcome, after: AgentState, queuesAfter: Queues) {
    var run := WholeRun(before.messages, queues, input);
    var reached, steps := Reached(run, trouble.patience), Lived(run, trouble);
    && queuesAfter == QueuesAfter(queues, steps)
    && Conserves(queues, steps, queuesAfter, Steering)
    && Conserves(queues, steps, queuesAfter, FollowUp)
    && match outcome
    case Refused => false
    case Completed =>
      && run.finished
      && |run.steps| < trouble.patience
      && after.messages == before.messages + Committed(run.steps)
      && after == Finished(Replay(Begun(before), run.steps))
      && queuesAfter == ActAll(run.end.queues, trouble.meanwhile)
    case Failed(failure, rethrown) =>
      && !(run.finished && |run.steps| < trouble.patience)
      && Committed(reached) <= Committed(run.steps)
      && failure == FailureMessage(Aborts(steps), trouble.reason)
      && Reports(failure, trouble.reason, exists i | 0 <= i < |steps| :: steps[i] == UserDoes(Abort))
      && after.messages == before.messages + Committed(reached) + (if trouble.refused == Some(0) then [] else [failure])
      && after == Finished(ReduceAll(Replay(Begun(before), reached),
                                     FailureEvents(failure)[..Agent.Heard(trouble.refused)]))
      && (rethrown <==> trouble.refused.Some? && trouble.refused.value <= 3)
      && (!rethrown && trouble.reason != "" ==> after.errorMessage == Some(trouble.reason))
  }

  lemma ActTaken(queues: Queues, steps: seq<Step>, action: UserAction)
    ensures Aborts(steps + [UserDoes(action)]) <==> Aborts(steps) || action.Abort?
    ensures QueuesAfter(queues, steps + [UserDoes(action)]) == Act(QueuesAfter(queues, steps), action)
  {
    assert (steps + [UserDoes(action)])[..|steps|] == steps;
  }

  /** What users do in the middle of a run that has taken these steps. */
  method UsersAct(agent: Agent, actions: seq<UserAction>, ghost queues: Queues, ghost steps: seq<Step>)
    requires agent.Valid() && agent.activeRun == Some(Aborts(steps))
      && agent.QueueValues() == QueuesAfter(queues, steps)
    modifies agent`activeRun, agent.steeringQueue, agent.followUpQueue
    ensures agent.Valid() && agent.State() == old(agent.State())
    ensures agent.activeRun == Some(Aborts(steps + ActionSteps(actions)))
    ensures agent.QueueValues() == QueuesAfter(queues, steps + ActionSteps(actions))
  {
    hide Aborts, QueuesAfter;
    ghost var taken := steps;
    assert actions[0..] == actions;
    for i := 0 to |actions|
      invariant agent.Valid() && agent.State() == old(agent.State())
      invariant agent.activeRun == Some(Aborts(taken)) && agent.QueueValues() == QueuesAfter(queues, taken)
      invariant taken + ActionSteps(actions[i..]) == steps + ActionSteps(actions)
    {
      assert actions[i..][1..] == actions[i + 1..];
      ActTaken(queues, taken, actions[i]);
      agent.Perform(actions[i]);
      taken := taken + [UserDoes(actions[i])];
    }
    assert taken == steps + ActionSteps(actions);
  }

  /** The executor of a run: the loop, and what users do until it is over. */
  method RunExecutor(agent: Agent, continuing: bool, input: RunInput, trouble: Trouble) returns (done: bool)
    requires agent.Valid() && agent.activeRun == Some(false)
    requires continuing ==>
      input.prompts == [] && agent.messages != [] && !agent.messages[|agent.messages| - 1].Assistant?
    modifies agent, agent.steeringQueue, agent.followUpQueue
    ensures var run := WholeRun(old(agent.messages), old(agent.QueueValues()), input);
            && agent.Valid() && agent.activeRun == Some(Aborts(Lived(run, trouble)))
            && agent.State() == Replay(old(agent.State()), Reached(run, trouble.patience))
            && agent.QueueValues() == QueuesAfter(old(agent.QueueValues()), Lived(run, trouble))
            && (done <==> run.finished && |run.steps| < trouble.patience)
  {
    hide WholeRun, Replay, Aborts, QueuesAfter;
    ghost var queues := agent.QueueValues();
    ghost var run := WholeRun(agent.messages, queues, input);
    var loop := new LoopRun(agent, agent.messages, trouble.patience, run.steps);
    var ended, refused := false, false;
    if continuing {
      refused, ended := loop.RunAgentLoopContinue(input, run);
    } else {
      ended := loop.RunAgentLoop(input, run);
    }
    assert loop.trace == Reached(run, trouble.patience);
    UsersAct(agent, trouble.meanwhile, queues, loop.trace);
    done := ended && loop.patience > 0;
  }

  method RunWithLifecycle(agent: Agent, continuing: bool, input: RunInput, trouble: Trouble)
    returns (outcome: RunOutcome)
    requires agent.Valid() && agent.activeRun.None?
    requires continuing ==>
      input.prompts == [] && agent.messages != [] && !agent.messages[|agent.messages| - 1].Assistant?
    modifies agent, agent.steeringQueue, agent.followUpQueue
    ensures agent.Valid() && agent.activeRun.None? && !outcome.Refused?
    ensures Settled(old(agent.State()), old(agent.QueueValues()), input, trouble, outcome, agent.State(),
                    agent.QueueValues())
  {
    hide WholeRun, Replay, Aborts, Committed, QueuesAfter, Conserves, ReduceAll, FailureEvents, FailureMessage, Reports,
      Lived;
    ghost var queues := agent.QueueValues();
    ghost var run := WholeRun(agent.messages, queues, input);
    LivedConserves(agent.messages, queues, input, trouble);
    agent.BeginRun();
    ghost var begun := agent.State();
    var done := RunExecutor(agent, continuing, input, trouble);
    ReplayTranscript(begun, Reached(run, trouble.patience));
    if done {
      outcome := Completed;
    } else {
      CutCommitsPrefix(Reached(run, trouble.patience), run.steps);
      FailureReports(Lived(run, trouble), trouble.reason);
      var failure := FailureMessage(agent.activeRun == Some(true), trouble.reason);
      var ok := agent.HandleRunFailure(failure, trouble.refused);
      outcome := Failed(failure, !ok);
    }
    agent.FinishRun();
  }

  method Prompt(agent: Agent, input: RunInput, trouble: Trouble) returns (outcome: RunOutcome)
    requires agent.Valid() && !input.skipFirstPoll
    modifies agent, agent.steeringQueue, agent.followUpQueue
    ensures agent.Valid() && agent.activeRun == old(agent.activeRun)
    ensures outcome.Refused? <==> old(agent.activeRun).Some?
    ensures if outcome.Refused? then agent.State() == old(agent.State())
      && agent.QueueValues() == old(agent.QueueValues())
            else Settled(old(agent.State()), old(agent.QueueValues()), input, trouble,
                         outcome, agent.State(), agent.QueueValues())
  {
    if agent.activeRun.Some? {
      return Refused;
    }
    outcome := RunWithLifecycle(agent, false, input, trouble);
  }

  /** What `continue()` starts from a transcript and two queues: the prompts it takes from a
      queue, whether the first steering poll is then skipped, and the queues left; None when
      there is nothing to continue from. */
  function Continuation(messages: seq<Message>, queues: Queues): Option<(seq<Message>, bool, Queues)> {
    if messages == [] then None
    else if !messages[|messages| - 1].Assistant? then Some(([], false, queues))
    else if queues.steering.items != [] then
      Some((Drained(queues.steering), true, queues.Put(Steering, Undrained(queues.steering))))
    else if queues.followUp.items != [] then
      Some((Drained(queues.followUp), false, queues.Put(FollowUp, Undrained(queues.followUp))))
    else None
  }

  /** The start of `continue()`: refuses, or takes the prompts of the run off their queue and
      says whether the first steering poll is to be skipped. */
  method TakeContinuation(agent: Agent) returns (taken: Option<(seq<Message>, bool)>)
    requires agent.Valid()
    modifies agent.steeringQueue, agent.followUpQueue
    ensures var plan := Continuation(agent.messages, old(agent.QueueValues()));
            && (taken.Some? <==> agent.activeRun.None? && plan.Some?)
            && (taken.Some? ==> taken.value == (plan.value.0, plan.value.1))
            && agent.QueueValues() == if taken.Some? then plan.value.2 else old(agent.QueueValues())
  {
    if agent.activeRun.Some? || agent.messages == [] {
      return None;
    }
    if agent.messages[|agent.messages| - 1].Assistant? {
      ghost var queues := agent.QueueValues();
      var queuedSteering := agent.DrainQueue(Steering);
      if queuedSteering != [] {
        return Some((queuedSteering, true));
      }
      assert agent.QueueValues() == queues;
      var queuedFollowUps := agent.DrainQueue(FollowUp);
      if queuedFollowUps != [] {
        return Some((queuedFollowUps, false));
      }
      assert agent.QueueValues() == queues;
      return None;
    }
    taken := Some(([], false));
  }

  method Continue(agent: Agent, beforeStart: seq<UserAction>, script: seq<TurnInput>, trouble: Trouble)
    returns (outcome: RunOutcome)
    requires agent.Valid()
    modifies agent, agent.steeringQueue, agent.followUpQueue
    ensures agent.Valid() && agent.activeRun == old(agent.activeRun)
    ensures outcome.Refused? <==>
      old(agent.activeRun).Some? || Continuation(old(agent.messages), old(agent.QueueValues())).None?
    ensures outcome.Refused? ==> agent.State() == old(agent.State()) && agent.QueueValues() == old(agent.QueueValues())
    ensures !outcome.Refused? ==>
      var (prompts, skip, queues) := Continuation(old(agent.messages), old(agent.QueueValues())).value;
      Settled(old(agent.State()), queues, RunInput(prompts, skip, beforeStart, script), trouble,
              outcome, agent.State(), agent.QueueValues())
  {
    hide Settled;
    var taken := TakeContinuation(agent);
    if taken.None? {
      return Refused;
    }
    var (prompts, skip) := taken.value;
    outcome := RunWithLifecycle(agent, prompts == [], RunInput(prompts, skip, beforeStart, script), trouble);
  }

  /** A continuation takes its prompts from the front of one queue and nothing from the
      other: nothing queued is lost on the way into the run. */
  lemma ContinuationConserves(messages: seq<Message>, queues: Queues)
    requires Continuation(messages, queues).Some?
    ensures var (prompts, skip, left) := Continuation(messages, queues).value;
            && (skip ==>
                  && prompts != [] && prompts + left.steering.items == queues.steering.items
                  && left.followUp == queues.followUp)
            && (!skip && prompts != [] ==>
                queues.steering.items == [] && prompts + left.followUp.items == queues.followUp.items)
            && (prompts == [] ==> left == queues)
            && left.steering.mode == queues.steering.mode && left.followUp.mode == queues.followUp.mode
  {
  }
}
