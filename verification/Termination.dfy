/** The nested loops stop exactly when the work that keeps them going is bounded. */
module Termination {
  import opened Messages
  import opened Reducer
  import opened Tools
  import opened LoopSpec
  import opened BatchTheorems
  import opened LoopSafety
  import opened QueueConservation
  import opened RunGuarantees

  // ----- Turns and answers

  function TurnEnds(steps: seq<Step>): nat {
    Summarize(steps).turnEnds
  }

  predicate EndsTurn(step: Step) {
    step.Emit? && step.event.TurnEnd?
  }

  lemma CountTurnEnds(s: Summary, step: Step)
    ensures Count(s, step).turnEnds == s.turnEnds + if EndsTurn(step) then 1 else 0
  {
  }

  lemma {:induction false} TurnEndsAppend(a: seq<Step>, b: seq<Step>)
    ensures TurnEnds(a + b) == TurnEnds(a) + TurnEnds(b)
    decreases |b|
  {
    hide Count, EndsTurn;
    if b == [] {
      assert a + b == a;
    } else {
      var init, last := b[..|b| - 1], b[|b| - 1];
      TurnEndsAppend(a, init);
      assert (a + b)[..|a + b| - 1] == a + init;
      CountTurnEnds(Summarize(a + init), last);
      CountTurnEnds(Summarize(init), last);
    }
  }

  lemma OneTurnEnd(step: Step)
    requires EndsTurn(step)
    ensures TurnEnds([step]) == 1
  {
    assert [step][..0] == [] && [step][0] == step;
    CountTurnEnds(Summarize([]), step);
  }

  lemma TurnHasEnd(ls: Loop, pending: seq<Message>, first: bool, t: TurnInput)
    ensures TurnEnds(TurnSteps(ls, pending, first, t)) >= 1
  {
    hide AskSteps, AnswerSteps, ActSteps, TurnResults, AfterTurn, TurnEnds;
    var asked := ls.context + pending;
    var body := AskSteps(ls.context, pending, first) + AnswerSteps(asked, t) + ActSteps(asked, t);
    var end := TurnEndStep(ls, pending, t);
    TurnEndsAppend(body, [end]);
    OneTurnEnd(end);
  }

  /** The run has a turn for every answer it was given, or it got to its end. */
  ghost predicate Thorough(run: Run, answers: nat) {
    run.finished || TurnEnds(run.steps) >= answers
  }

  lemma AfterThorough(run: Run, steps: seq<Step>, answers: nat)
    requires Thorough(run, answers)
    ensures Thorough(run.After(steps), answers + TurnEnds(steps))
  {
    hide TurnEnds;
    TurnEndsAppend(steps, run.steps);
  }

  lemma {:induction false} RunFromThorough(ls: Loop, pending: seq<Message>, first: bool, script: seq<TurnInput>)
    ensures Thorough(RunFrom(ls, pending, first, script), |script|)
    decreases |script|
  {
    if script != [] {
      hide TurnEnds, TurnSteps;
      var t := script[0];
      TurnHasEnd(ls, pending, first, t);
      AfterResponseThorough(ls, pending, t, script[1..]);
      AfterThorough(AfterResponse(ls, pending, t, script[1..]), TurnSteps(ls, pending, first, t), |script| - 1);
    }
  }

  lemma {:induction false} AfterResponseThorough(ls: Loop, pending: seq<Message>, t: TurnInput, script: seq<TurnInput>)
    ensures Thorough(AfterResponse(ls, pending, t, script), |script|)
    decreases |script| + 1, 2
  {
    var end := AfterTurn(ls, pending, t);
    var more := Demands(ls.context + pending, t);
    var hooked := AfterPrepare(end, t);
    if !Failed(t.response.final) && !t.stop {
      hide TurnEnds, HookSteps, AfterTurn, AfterPrepare, Demands;
      AfterStopThorough(hooked, more, t, script);
      AfterThorough(AfterStop(hooked, more, t, script), HookSteps(end, t, more), |script|);
    }
  }

  lemma {:induction false} AfterStopThorough(ls: Loop, more: bool, t: TurnInput, script: seq<TurnInput>)
    ensures Thorough(AfterStop(ls, more, t, script), |script|)
    decreases |script| + 1, 1
  {
    hide TurnEnds, PollSteps;
    var steered := PolledMessages(ls.queues, Steering, t.beforeSteering);
    var next := AfterSteering(ls, t);
    var polls := PollSteps(ls.queues, Steering, t.beforeSteering);
    if more || steered != [] {
      RunFromThorough(next, steered, false, script);
      AfterThorough(RunFrom(next, steered, false, script), polls, |script|);
    } else {
      WouldStopThorough(next, t, script);
      AfterThorough(WouldStop(next, t, script), polls, |script|);
    }
  }

  lemma {:induction false} WouldStopThorough(ls: Loop, t: TurnInput, script: seq<TurnInput>)
    ensures Thorough(WouldStop(ls, t, script), |script|)
    decreases |script| + 1, 0
  {
    hide TurnEnds, PollSteps;
    var followed := PolledMessages(ls.queues, FollowUp, t.beforeFollowUp);
    var next := AfterFollowUp(ls, t);
    if followed != [] {
      RunFromThorough(next, followed, false, script);
      AfterThorough(RunFrom(next, followed, false, script), PollSteps(ls.queues, FollowUp, t.beforeFollowUp), |script|);
    }
  }

  // ----- The run ends

  /** What keeps the loops going: turns whose tools ask for another one, and messages taken
      from either queue. */
  function Work(steps: seq<Step>): nat {
    Summarize(steps).demands + |Taken(steps, Steering)| + |Taken(steps, FollowUp)|
  }

  lemma TurnsAreBounded(agent: AgentState, prompts: seq<Message>, steps: seq<Step>)
    requires Obeys(agent, prompts, steps)
    ensures TurnEnds(steps) <= 1 + Work(steps)
  {
    assert steps[..|steps|] == steps;
    TurnBound(agent, prompts, steps, |steps|);
    var w := Known(agent, prompts, steps, |steps|);
  }

  /** The loops stop: a run that is given more answers than one, plus the turns whose tools
      asked to go on, plus the messages taken from the queues, gets to its end. */
  lemma LoopsStop(agent: AgentState, queues: Queues, input: RunInput)
    requires Idle(agent) && WellStreamed(input.script)
    ensures var run := WholeRun(agent.messages, queues, input);
            |input.script| > 1 + Work(run.steps) ==> run.finished && EndsRun(run.steps)
  {
    var run := WholeRun(agent.messages, queues, input);
    WholeRunThorough(agent.messages, queues, input);
    EveryRunObeys(agent, queues, input);
    hide WholeRun, Obeys;
    TurnsAreBounded(agent, input.prompts, run.steps);
  }

  lemma WholeRunThorough(transcript: seq<Message>, queues: Queues, input: RunInput)
    ensures Thorough(WholeRun(transcript, queues, input), |input.script|)
  {
    hide TurnEnds, RunFrom, PromptSteps;
    var context := transcript + input.prompts;
    var (polls, pending, polled) := FirstPoll(queues, input.skipFirstPoll, input.beforeStart);
    var opening := [Emit(AgentStart, context), Emit(TurnStart, context)] + PromptSteps(context, input.prompts) + polls;
    var ls := Loop(context, input.prompts, polled);
    RunFromThorough(ls, pending, true, input.script);
    AfterThorough(RunFrom(ls, pending, true, input.script), opening, |input.script|);
  }

  // ----- A world that always answers

  lemma {:induction false} RunFromStable(ls: Loop, pending: seq<Message>, first: bool, script: seq<TurnInput>,
                                         more: seq<TurnInput>)
    requires RunFrom(ls, pending, first, script).finished
    ensures RunFrom(ls, pending, first, script + more) == RunFrom(ls, pending, first, script)
    decreases |script|
  {
    hide TurnSteps, AfterTurn, AfterResponse;
    Unrolls(ls, pending, first, script, more);
    AfterResponseStable(ls, pending, script[0], script[1..], more);
  }

  lemma Unrolls(ls: Loop, pending: seq<Message>, first: bool, script: seq<TurnInput>, more: seq<TurnInput>)
    requires RunFrom(ls, pending, first, script).finished
    ensures script != [] && AfterResponse(ls, pending, script[0], script[1..]).finished
    ensures RunFrom(ls, pending, first, script) ==
            AfterResponse(ls, pending, script[0], script[1..]).After(TurnSteps(ls, pending, first, script[0]))
    ensures RunFrom(ls, pending, first, script + more) ==
            AfterResponse(ls, pending, script[0], script[1..] + more).After(TurnSteps(ls, pending, first, script[0]))
  {
    hide TurnSteps, AfterTurn, AfterResponse;
    assert (script + more)[1..] == script[1..] + more && (script + more)[0] == script[0];
  }

  lemma {:induction false} AfterResponseStable(ls: Loop, pending: seq<Message>, t: TurnInput,
                                               script: seq<TurnInput>, more: seq<TurnInput>)
    requires AfterResponse(ls, pending, t, script).finished
    ensures AfterResponse(ls, pending, t, script + more) == AfterResponse(ls, pending, t, script)
    decreases |script| + 1, 2
  {
    if !Failed(t.response.final) && !t.stop {
      hide HookSteps, AfterTurn, AfterPrepare, Demands;
      AfterStopStable(AfterPrepare(AfterTurn(ls, pending, t), t), Demands(ls.context + pending, t), t, script, more);
    }
  }

  lemma {:induction false} AfterStopStable(ls: Loop, demand: bool, t: TurnInput, script: seq<TurnInput>,
                                           more: seq<TurnInput>)
    requires AfterStop(ls, demand, t, script).finished
    ensures AfterStop(ls, demand, t, script + more) == AfterStop(ls, demand, t, script)
    decreases |script| + 1, 1
  {
    hide PollSteps;
    var steered := PolledMessages(ls.queues, Steering, t.beforeSteering);
    var next := AfterSteering(ls, t);
    if demand || steered != [] {
      RunFromStable(next, steered, false, script, more);
    } else {
      WouldStopStable(next, t, script, more);
    }
  }

  lemma {:induction false} WouldStopStable(ls: Loop, t: TurnInput, script: seq<TurnInput>, more: seq<TurnInput>)
    requires WouldStop(ls, t, script).finished
    ensures WouldStop(ls, t, script + more) == WouldStop(ls, t, script)
    decreases |script| + 1, 0
  {
    hide PollSteps;
    var followed := PolledMessages(ls.queues, FollowUp, t.beforeFollowUp);
    if followed != [] {
      RunFromStable(AfterFollowUp(ls, t), followed, false, script, more);
    }
  }

  /** What the world answers to any turn, should the run get to it. */
  type World = nat -> TurnInput

  function Answers(world: World, n: nat): (script: seq<TurnInput>)
    ensures |script| == n && forall i | 0 <= i < n :: script[i] == world(i)
  {
    if n == 0 then [] else Answers(world, n - 1) + [world(n - 1)]
  }

  /** A run that breaks off when it asks for an answer beyond the first `n`. */
  function RunFor(agent: AgentState, queues: Queues, input: RunInput, world: World, n: nat): Run {
    WholeRun(agent.messages, queues, input.(script := Answers(world, n)))
  }

  ghost predicate WellBehaved(world: World) {
    forall i: nat :: Starts(world(i).response.events) <= 1
  }

  lemma FinishedIsFinal(agent: AgentState, queues: Queues, input: RunInput, world: World, n: nat, m: nat)
    requires n <= m && RunFor(agent, queues, input, world, n).finished
    ensures RunFor(agent, queues, input, world, m) == RunFor(agent, queues, input, world, n)
  {
    var script, longer := Answers(world, n), Answers(world, m);
    AnswersExtend(world, n, m);
    var context := agent.messages + input.prompts;
    var (polls, pending, polled) := FirstPoll(queues, input.skipFirstPoll, input.beforeStart);
    hide RunFrom, FirstPoll, Answers, PromptSteps;
    RunFromStable(Loop(context, input.prompts, polled), pending, true, script, longer[n..]);
  }

  lemma AnswersExtend(world: World, n: nat, m: nat)
    requires n <= m
    ensures Answers(world, m) == Answers(world, n) + Answers(world, m)[n..]
  {
    assert Answers(world, m)[..n] == Answers(world, n);
  }

  function WorkFor(agent: AgentState, queues: Queues, input: RunInput, world: World, n: nat): nat {
    Work(RunFor(agent, queues, input, world, n).steps)
  }

  /** The most work done with at most `n` answers. */
  function MostWork(agent: AgentState, queues: Queues, input: RunInput, world: World, n: nat): nat {
    var work := WorkFor(agent, queues, input, world, n);
    if n == 0 then work
    else
      var before := MostWork(agent, queues, input, world, n - 1);
      if before > work then before else work
  }

  lemma {:induction false} NoMoreWork(agent: AgentState, queues: Queues, input: RunInput, world: World, n: nat, m: nat)
    requires m <= n
    ensures WorkFor(agent, queues, input, world, m) <= MostWork(agent, queues, input, world, n)
  {
    hide WorkFor;
    if m < n {
      NoMoreWork(agent, queues, input, world, n - 1, m);
    }
  }

  ghost predicate Bounded(agent: AgentState, queues: Queues, input: RunInput, world: World, bound: nat) {
    forall n: nat :: WorkFor(agent, queues, input, world, n) <= bound
  }

  /** The nested loops stop exactly if the work is bounded: finitely many turns whose tools
      ask for another one, and finitely many messages taken from the queues. */
  lemma StopsExactly(agent: AgentState, queues: Queues, input: RunInput, world: World)
    requires Idle(agent) && WellBehaved(world)
    ensures (exists n: nat :: RunFor(agent, queues, input, world, n).finished) <==>
            (exists bound: nat :: Bounded(agent, queues, input, world, bound))
  {
    hide RunFor, WorkFor;
    if exists n: nat :: RunFor(agent, queues, input, world, n).finished {
      var n: nat :| RunFor(agent, queues, input, world, n).finished;
      FinishedIsBounded(agent, queues, input, world, n);
    }
    if exists bound: nat :: Bounded(agent, queues, input, world, bound) {
      var bound: nat :| Bounded(agent, queues, input, world, bound);
      assert WorkFor(agent, queues, input, world, bound + 2) <= bound;
      BoundedFinishes(agent, queues, input, world, bound);
    }
  }

  lemma FinishedIsBounded(agent: AgentState, queues: Queues, input: RunInput, world: World, n: nat)
    requires RunFor(agent, queues, input, world, n).finished
    ensures Bounded(agent, queues, input, world, MostWork(agent, queues, input, world, n))
  {
    hide RunFor, MostWork, Work;
    var most := MostWork(agent, queues, input, world, n);
    forall m: nat ensures WorkFor(agent, queues, input, world, m) <= most {
      NoMoreWork(agent, queues, input, world, n, if m <= n then m else n);
      if m > n {
        FinishedIsFinal(agent, queues, input, world, n, m);
      }
    }
  }

  lemma BoundedFinishes(agent: AgentState, queues: Queues, input: RunInput, world: World, bound: nat)
    requires Idle(agent) && WellBehaved(world)
    requires WorkFor(agent, queues, input, world, bound + 2) <= bound
    ensures RunFor(agent, queues, input, world, bound + 2).finished
  {
    LoopsStop(agent, queues, input.(script := Answers(world, bound + 2)));
  }

  // ----- A run that never stops

  /** The model calls tools, and there are none; nobody stops the run. */
  predicate CallsNothing(t: TurnInput) {
    !Failed(t.response.final) && !t.stop && t.box.tools == [] && ToolCalls(t.response.final.content) != []
  }

  lemma CallsNothingDemands(asked: seq<Message>, t: TurnInput)
    requires CallsNothing(t)
    ensures Demands(asked, t)
  {
    var r := Request(t.box, AfterStream(asked, false, t.response), t.response.final);
    BlockedCallsContinue(r, 0);
  }

  lemma {:induction false} CallsNothingGoesOn(ls: Loop, pending: seq<Message>, first: bool, script: seq<TurnInput>)
    requires forall i | 0 <= i < |script| :: CallsNothing(script[i])
    ensures !RunFrom(ls, pending, first, script).finished
    decreases |script|
  {
    if script != [] {
      hide Demands, TurnSteps, HookSteps, PollSteps, AfterTurn, AfterPrepare, AfterSteering;
      var t, later := script[0], script[1..];
      CallsNothingDemands(ls.context + pending, t);
      var hooked := AfterPrepare(AfterTurn(ls, pending, t), t);
      var steered := PolledMessages(hooked.queues, Steering, t.beforeSteering);
      CallsNothingGoesOn(AfterSteering(hooked, t), steered, false, later);
      assert !AfterStop(hooked, true, t, later).finished;
    }
  }

  /** For instance: a model that goes on calling a tool that does not exist is asked again
      and again, however many turns it gets. */
  lemma UnknownToolsForEver(agent: AgentState, queues: Queues, input: RunInput, world: World, n: nat)
    requires forall i: nat :: CallsNothing(world(i))
    ensures !RunFor(agent, queues, input, world, n).finished
  {
    var script := Answers(world, n);
    var (polls, pending, polled) := FirstPoll(queues, input.skipFirstPoll, input.beforeStart);
    CallsNothingGoesOn(Loop(agent.messages + input.prompts, input.prompts, polled), pending, true, script);
  }
}
