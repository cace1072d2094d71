/** What the world answers reaches the run: in order, turn by turn, and nothing else does. */
module ScriptHeard {
  import opened Messages
  import opened LoopSpec
  import opened ToolBatch
  import BatchTheorems

  /** What the steps show of the world's answers: the final message of a turn, the answers of
      the two hooks, what users do, and which queue is asked. */
  datatype Heard =
    | Answer(final: Message)
    | Replacement(context: seq<Message>)
    | Decided(stop: bool)
    | Action(action: UserAction)
    | Asked(queue: QueueName)

  function Hear(step: Step): seq<Heard> {
    match step
    case Emit(TurnEnd(m, _), _) => [Answer(m)]
    case Override(context) => [Replacement(context)]
    case Decide(stop) => [Decided(stop)]
    case UserDoes(action) => [Action(action)]
    case Poll(name, _) => [Asked(name)]
    case _ => []
  }

  function HeardIn(steps: seq<Step>): seq<Heard> {
    if steps == [] then [] else HeardIn(steps[..|steps| - 1]) + Hear(steps[|steps| - 1])
  }

  lemma {:induction false} HeardAppend(a: seq<Step>, b: seq<Step>)
    ensures HeardIn(a + b) == HeardIn(a) + HeardIn(b)
  {
    hide Hear;
    if b == [] {
      assert a + b == a;
    } else {
      assert (a + b)[..|a + b| - 1] == a + b[..|b| - 1];
      HeardAppend(a, b[..|b| - 1]);
    }
  }

  lemma OneHeard(step: Step)
    ensures HeardIn([step]) == Hear(step)
  {
    assert [step][..0] == [];
  }

  function Actions(actions: seq<UserAction>): (heard: seq<Heard>)
    ensures |heard| == |actions| && forall i | 0 <= i < |actions| :: heard[i] == Action(actions[i])
  {
    seq(|actions|, i requires 0 <= i < |actions| => Action(actions[i]))
  }

  function Polled(name: QueueName, actions: seq<UserAction>): seq<Heard> {
    Actions(actions) + [Asked(name)]
  }

  function Hooks(t: TurnInput): seq<Heard> {
    (if t.context.Some? then [Replacement(t.context.value)] else []) + [Decided(t.stop)]
  }

  /** What is heard of a turn and the polls after it: its answer, and if that did not fail the
      answers of the hooks, and if they do not stop the run what users do before the steering
      poll, and before the follow-up poll if there is one. */
  predicate TurnHeard(t: TurnInput, heard: seq<Heard>) {
    var answer := [Answer(Assistant(t.response.final))];
    var steered := Hooks(t) + Polled(Steering, t.beforeSteering);
    if t.response.final.stopReason.Error? || t.response.final.stopReason.Aborted? then heard == answer
    else if t.stop then heard == answer + Hooks(t)
    else heard == answer + steered || heard == answer + (steered + Polled(FollowUp, t.beforeFollowUp))
  }

  function Flat(parts: seq<seq<Heard>>): seq<Heard> {
    if parts == [] then [] else parts[0] + Flat(parts[1..])
  }

  /** `heard` is what is heard of the first turns of the script. */
  ghost predicate Heeds(heard: seq<Heard>, script: seq<TurnInput>, parts: seq<seq<Heard>>) {
    heard == Flat(parts) && |parts| <= |script| && forall i | 0 <= i < |parts| :: TurnHeard(script[i], parts[i])
  }

  // ----- Steps that say nothing of the world

  ghost predicate Silent(steps: seq<Step>) {
    forall i | 0 <= i < |steps| :: Hear(steps[i]) == []
  }

  lemma {:induction false} SilentHeard(steps: seq<Step>)
    requires Silent(steps)
    ensures HeardIn(steps) == []
  {
    if steps != [] {
      SilentHeard(steps[..|steps| - 1]);
    }
  }

  lemma {:induction false} InjectSilent(context: seq<Message>, messages: seq<Message>)
    ensures Silent(InjectSteps(context, messages))
    decreases |messages|
  {
    if messages != [] {
      InjectSilent(context + [messages[0]], messages[1..]);
    }
  }

  lemma {:induction false} PromptsSilent(context: seq<Message>, prompts: seq<Message>)
    ensures Silent(PromptSteps(context, prompts))
  {
    if prompts != [] {
      PromptsSilent(context, prompts[1..]);
    }
  }

  lemma {:induction false} StreamSilent(context: seq<Message>, added: bool, response: Response)
    requires added ==> context != []
    ensures Silent(StreamSteps(context, added, response))
    decreases |response.events|
  {
    var events := response.events;
    if events != [] && !events[0].Terminal? {
      var rest := response.(events := events[1..]);
      match events[0]
      case Start(partial) => StreamSilent(context + [Assistant(partial)], true, rest);
      case Delta(partial) =>
        StreamSilent(if added then ReplaceLast(context, Assistant(partial)) else context, added, rest);
    }
  }

  lemma BatchSilent(b: Batch, schedule: seq<nat>)
    ensures Silent(BatchSteps(b, schedule))
  {
    forall i | 0 <= i < |BatchSteps(b, schedule)| ensures Hear(BatchSteps(b, schedule)[i]) == [] {
      BatchTheorems.BatchKinds(b, schedule, i);
    }
  }

  lemma TurnSays(ls: Loop, pending: seq<Message>, first: bool, t: TurnInput)
    ensures HeardIn(TurnSteps(ls, pending, first, t)) == [Answer(Assistant(t.response.final))]
  {
    var asked := ls.context + pending;
    var ask, answer, act := AskSteps(ls.context, pending, first), AnswerSteps(asked, t), ActSteps(asked, t);
    hide HeardIn, AskSteps, AnswerSteps, ActSteps, Silent;
    PartsSilent(ls.context, pending, first, asked, t);
    SilentHeard(ask);
    SilentHeard(answer);
    SilentHeard(act);
    OneHeard(TurnEndStep(ls, pending, t));
    HeardAppend(ask, answer);
    HeardAppend(ask + answer, act);
    HeardAppend(ask + answer + act, [TurnEndStep(ls, pending, t)]);
  }

  lemma PartsSilent(context: seq<Message>, pending: seq<Message>, first: bool, asked: seq<Message>, t: TurnInput)
    ensures Silent(AskSteps(context, pending, first)) && Silent(AnswerSteps(asked, t)) && Silent(ActSteps(asked, t))
  {
    InjectSilent(context, pending);
    StreamSilent(asked, false, t.response);
    BatchSilent(TurnBatch(asked, t), t.schedule);
    hide InjectSteps, StreamSteps, BatchSteps, TurnBatch;
  }

  // ----- Hooks and polls

  lemma {:induction false} ActionsHeard(actions: seq<UserAction>)
    ensures HeardIn(ActionSteps(actions)) == Actions(actions)
  {
    if actions != [] {
      var first, later := [UserDoes(actions[0])], ActionSteps(actions[1..]);
      ActionsHeard(actions[1..]);
      OneHeard(UserDoes(actions[0]));
      HeardAppend(first, later);
      assert Actions(actions) == [Action(actions[0])] + Actions(actions[1..]);
    }
  }

  lemma PollHeard(queues: Queues, name: QueueName, actions: seq<UserAction>)
    ensures HeardIn(PollSteps(queues, name, actions)) == Polled(name, actions)
  {
    var poll := Poll(name, Drained(ActAll(queues, actions).Get(name)));
    ActionsHeard(actions);
    OneHeard(poll);
    HeardAppend(ActionSteps(actions), [poll]);
  }

  lemma FirstPollHeard(queues: Queues, skip: bool, actions: seq<UserAction>)
    ensures HeardIn(FirstPoll(queues, skip, actions).0) == Polled(Steering, actions)
  {
    ActionsHeard(actions);
    OneHeard(Poll(Steering, []));
    HeardAppend(ActionSteps(actions), [Poll(Steering, [])]);
    PollHeard(queues, Steering, actions);
  }

  lemma HooksHeard(ls: Loop, t: TurnInput, more: bool)
    ensures HeardIn(HookSteps(ls, t, more)) == Hooks(t)
  {
    var done := TurnDone(ls.context, ls.newMessages, more);
    var replace := if t.context.Some? then [Override(t.context.value)] else [];
    OneHeard(done);
    OneHeard(Decide(t.stop));
    if t.context.Some? {
      OneHeard(Override(t.context.value));
    } else {
      SilentHeard(replace);
    }
    HeardAppend([done], replace);
    HeardAppend([done] + replace, [Decide(t.stop)]);
    assert HookSteps(ls, t, more) == [done] + replace + [Decide(t.stop)];
  }

  lemma EndHeard(ls: Loop)
    ensures HeardIn(Close(ls).steps) == []
  {
    SilentHeard(Close(ls).steps);
  }

  // ----- The nested loops

  lemma AfterHeard(run: Run, steps: seq<Step>)
    ensures HeardIn(run.After(steps).steps) == HeardIn(steps) + HeardIn(run.steps)
  {
    HeardAppend(steps, run.steps);
  }

  lemma HeedsNext(t: TurnInput, script: seq<TurnInput>, part: seq<Heard>, heard: seq<Heard>, parts: seq<seq<Heard>>)
    requires TurnHeard(t, part) && Heeds(heard, script, parts)
    ensures Heeds(part + heard, [t] + script, [part] + parts)
  {
    hide TurnHeard;
    assert ([part] + parts)[1..] == parts;
  }

  lemma {:induction false} RunFromHeard(ls: Loop, pending: seq<Message>, first: bool, script: seq<TurnInput>)
    returns (parts: seq<seq<Heard>>)
    ensures Heeds(HeardIn(RunFrom(ls, pending, first, script).steps), script, parts)
    ensures !RunFrom(ls, pending, first, script).finished ==> |parts| == |script|
    decreases |script|
  {
    if script == [] {
      parts := [];
    } else {
      var t, later := script[0], script[1..];
      var rest, after := AfterResponseHeard(ls, pending, t, later);
      TurnSays(ls, pending, first, t);
      hide HeardIn, TurnSteps, TurnHeard;
      AfterHeard(AfterResponse(ls, pending, t, later), TurnSteps(ls, pending, first, t));
      var part := [Answer(Assistant(t.response.final))] + rest;
      HeedsNext(t, later, part, Flat(after), after);
      parts := [part] + after;
      assert script == [t] + later;
      Regrouped([Answer(Assistant(t.response.final))], rest, Flat(after));
    }
  }

  lemma Regrouped(a: seq<Heard>, b: seq<Heard>, c: seq<Heard>)
    ensures a + (b + c) == a + b + c
  {
  }

  /** What is heard from a `turn_end` on: the rest of that turn, and the turns after it. */
  lemma {:induction false} AfterResponseHeard(ls: Loop, pending: seq<Message>, t: TurnInput, script: seq<TurnInput>)
    returns (rest: seq<Heard>, parts: seq<seq<Heard>>)
    ensures TurnHeard(t, [Answer(Assistant(t.response.final))] + rest)
    ensures HeardIn(AfterResponse(ls, pending, t, script).steps) == rest + Flat(parts)
    ensures Heeds(Flat(parts), script, parts)
    ensures !AfterResponse(ls, pending, t, script).finished ==> |parts| == |script|
    decreases |script| + 1, 2
  {
    var end := AfterTurn(ls, pending, t);
    if Failed(t.response.final) {
      rest, parts := [], [];
      EndHeard(end);
    } else {
      var more := Demands(ls.context + pending, t);
      var hooked := AfterPrepare(end, t);
      HooksHeard(end, t, more);
      if t.stop {
        rest, parts := Hooks(t), [];
        EndHeard(hooked);
        hide HeardIn, HookSteps, Hooks, Demands, AfterTurn, AfterPrepare;
        AfterHeard(Close(hooked), HookSteps(end, t, more));
      } else {
        var polled;
        polled, parts := AfterStopHeard(hooked, more, t, script);
        rest := Hooks(t) + polled;
        hide HeardIn, HookSteps, Hooks, Demands, AfterTurn, AfterPrepare, Polled, AfterStop;
        AfterHeard(AfterStop(hooked, more, t, script), HookSteps(end, t, more));
        Regrouped(Hooks(t), polled, Flat(parts));
        Regrouped(Hooks(t), Polled(Steering, t.beforeSteering), Polled(FollowUp, t.beforeFollowUp));
      }
    }
  }

  lemma {:induction false} AfterStopHeard(ls: Loop, more: bool, t: TurnInput, script: seq<TurnInput>)
    returns (polled: seq<Heard>, parts: seq<seq<Heard>>)
    ensures var steered := Polled(Steering, t.beforeSteering);
            polled == steered || polled == steered + Polled(FollowUp, t.beforeFollowUp)
    ensures HeardIn(AfterStop(ls, more, t, script).steps) == polled + Flat(parts)
    ensures Heeds(Flat(parts), script, parts)
    ensures !AfterStop(ls, more, t, script).finished ==> |parts| == |script|
    decreases |script| + 1, 1
  {
    var steered := PolledMessages(ls.queues, Steering, t.beforeSteering);
    var next := AfterSteering(ls, t);
    var polls := PollSteps(ls.queues, Steering, t.beforeSteering);
    PollHeard(ls.queues, Steering, t.beforeSteering);
    hide HeardIn, PollSteps, Polled, TurnHeard;
    if more || steered != [] {
      parts := RunFromHeard(next, steered, false, script);
      polled := Polled(Steering, t.beforeSteering);
      AfterHeard(RunFrom(next, steered, false, script), polls);
    } else {
      parts := WouldStopHeard(next, t, script);
      polled := Polled(Steering, t.beforeSteering) + Polled(FollowUp, t.beforeFollowUp);
      AfterHeard(WouldStop(next, t, script), polls);
      Regrouped(Polled(Steering, t.beforeSteering), Polled(FollowUp, t.beforeFollowUp), Flat(parts));
    }
  }

  lemma {:induction false} WouldStopHeard(ls: Loop, t: TurnInput, script: seq<TurnInput>)
    returns (parts: seq<seq<Heard>>)
    ensures HeardIn(WouldStop(ls, t, script).steps) == Polled(FollowUp, t.beforeFollowUp) + Flat(parts)
    ensures Heeds(Flat(parts), script, parts)
    ensures !WouldStop(ls, t, script).finished ==> |parts| == |script|
    decreases |script| + 1, 0
  {
    var followed := PolledMessages(ls.queues, FollowUp, t.beforeFollowUp);
    var next := AfterFollowUp(ls, t);
    var polls := PollSteps(ls.queues, FollowUp, t.beforeFollowUp);
    PollHeard(ls.queues, FollowUp, t.beforeFollowUp);
    hide HeardIn, PollSteps, Polled, TurnHeard;
    if followed != [] {
      parts := RunFromHeard(next, followed, false, script);
      AfterHeard(RunFrom(next, followed, false, script), polls);
    } else {
      parts := [];
      EndHeard(next);
      AfterHeard(Close(next), polls);
    }
  }

  /** Over a whole run: what users do before the start is done before the first poll; then
      each turn takes the next answers of the script, all of them and in their order, as far
      as the turn asks for them. A run that does not end has used up the script. */
  lemma ScriptHeeded(transcript: seq<Message>, queues: Queues, input: RunInput) returns (parts: seq<seq<Heard>>)
    ensures var run := WholeRun(transcript, queues, input);
            && HeardIn(run.steps) == Actions(input.beforeStart) + [Asked(Steering)] + Flat(parts)
            && Heeds(Flat(parts), input.script, parts)
            && (!run.finished ==> |parts| == |input.script|)
  {
    var context := transcript + input.prompts;
    var (polls, pending, polled) := FirstPoll(queues, input.skipFirstPoll, input.beforeStart);
    var opening := [Emit(AgentStart, context), Emit(TurnStart, context)] + PromptSteps(context, input.prompts);
    var ls := Loop(context, input.prompts, polled);
    hide HeardIn, RunFrom, PromptSteps, FirstPoll, TurnHeard, Flat;
    OpeningHeard(context, input.prompts);
    FirstPollHeard(queues, input.skipFirstPoll, input.beforeStart);
    parts := RunFromHeard(ls, pending, true, input.script);
    HeardAppend(opening, polls);
    AfterHeard(RunFrom(ls, pending, true, input.script), opening + polls);
  }

  lemma OpeningHeard(context: seq<Message>, prompts: seq<Message>)
    ensures HeardIn([Emit(AgentStart, context), Emit(TurnStart, context)] + PromptSteps(context, prompts)) == []
  {
    PromptsSilent(context, prompts);
    hide HeardIn, PromptSteps;
    SilentHeard([Emit(AgentStart, context), Emit(TurnStart, context)] + PromptSteps(context, prompts));
  }
}
