/** Every run of the loop keeps every rule of the observer. */
module LoopSafety {
  import opened Messages
  import opened Reducer
  import opened Tools
  import opened ToolBatch
  import opened LoopSpec
  import opened Watching
  import BatchSafety

  // ----- Streaming

  /** The observer after a complete response. */
  function Streamed(w: Watcher, final: AssistantMessage): Watcher {
    w.(agent := w.agent.(messages := w.agent.messages + [Assistant(final)], streaming := None),
       phase := Acting,
       tools := NO_TOOLS.(calls := ToolCalls(final.content)),
       failed := Failed(final),
       view := w.view + [Assistant(final)])
  }

  /** The context is what the observer expects, plus the partial message once it is announced. */
  ghost predicate StreamState(w: Watcher, context: seq<Message>, added: bool) {
    && (added ==> context != [])
    && (if added then w.phase.Streaming? else w.phase.Answering?)
    && w.view == if added then context[..|context| - 1] else context
  }

  /** A response is accepted exactly when its stream announces the message at most once;
      an accepted response leads to one committed message and a context that agrees. */
  lemma {:induction false} StreamSafe(w: Watcher, context: seq<Message>, added: bool, response: Response)
    requires StreamState(w, context, added)
    ensures Safe(w, StreamSteps(context, added, response)) <==>
            Starts(response.events) <= if added then 0 else 1
    ensures Safe(w, StreamSteps(context, added, response)) ==>
            Watch(w, StreamSteps(context, added, response)) == Streamed(w, response.final)
    decreases |response.events|
  {
    var events := response.events;
    if events == [] || events[0].Terminal? {
      FinalSafe(w, context, added, response);
    } else {
      var rest := response.(events := events[1..]);
      match events[0]
      case Start(partial) =>
        var m := Assistant(partial);
        AnnounceSafe(w, context, added, m, StreamSteps(context + [m], true, rest));
        if !added {
          StreamSafe(Announced(w, m), context + [m], true, rest);
        }
      case Delta(partial) =>
        var m := Assistant(partial);
        if added {
          var updated := ReplaceLast(context, m);
          UpdateSafe(w, context, m, StreamSteps(updated, true, rest));
          StreamSafe(Announced(w, m), updated, true, rest);
        } else {
          StreamSafe(w, context, false, rest);
        }
    }
  }

  /** The observer once a partial message is announced or updated. */
  function Announced(w: Watcher, m: Message): Watcher {
    w.(agent := w.agent.(streaming := Some(m)), phase := Streaming)
  }

  /** The announcement is in place exactly when it is the first one. */
  lemma AnnounceSafe(w: Watcher, context: seq<Message>, added: bool, m: Message, rest: seq<Step>)
    requires StreamState(w, context, added) && m.Assistant?
    ensures var steps := [Emit(MessageStart(m), context + [m])] + rest;
            && (Safe(w, steps) <==> !added && Safe(Announced(w, m), rest))
            && (!added ==> Watch(w, steps) == Watch(Announced(w, m), rest))
    ensures !added ==> StreamState(Announced(w, m), context + [m], true)
  {
    var step := Emit(MessageStart(m), context + [m]);
    OneStep(w, step);
    WatchAppend(w, [step], rest);
    if !added {
      assert Observe(w, step) == Announced(w, m);
      assert (context + [m])[..|context|] == context;
    }
  }

  lemma UpdateSafe(w: Watcher, context: seq<Message>, m: Message, rest: seq<Step>)
    requires StreamState(w, context, true) && m.Assistant?
    ensures var steps := [Emit(MessageUpdate(m), ReplaceLast(context, m))] + rest;
            && (Safe(w, steps) <==> Safe(Announced(w, m), rest))
            && Watch(w, steps) == Watch(Announced(w, m), rest)
    ensures StreamState(Announced(w, m), ReplaceLast(context, m), true)
  {
    var step := Emit(MessageUpdate(m), ReplaceLast(context, m));
    OneStep(w, step);
    WatchAppend(w, [step], rest);
    assert Observe(w, step) == Announced(w, m);
    var updated := ReplaceLast(context, m);
    assert updated[..|updated| - 1] == context[..|context| - 1];
  }

  // ----- What listeners see of a response

  /** The stream events that count: those before the stream ends. */
  function Consumed(events: seq<StreamEvent>): (consumed: seq<StreamEvent>)
    ensures consumed <= events && forall i | 0 <= i < |consumed| :: !consumed[i].Terminal?
    ensures |consumed| < |events| ==> events[|consumed|].Terminal?
  {
    if events == [] || events[0].Terminal? then [] else [events[0]] + Consumed(events[1..])
  }

  /** The events from the first announcement on. */
  function FromStart(events: seq<StreamEvent>): (announced: seq<StreamEvent>)
    ensures |announced| <= |events| && announced == events[|events| - |announced|..]
    ensures announced != [] ==> announced[0].Start?
    ensures forall i | 0 <= i < |events| - |announced| :: !events[i].Start?
  {
    if events == [] || events[0].Start? then events else FromStart(events[1..])
  }

  /** `step` announces or updates the partial message of a stream event, and shows it at the
      end of the context. */
  predicate Reports(step: Step, event: StreamEvent)
    requires !event.Terminal?
  {
    var m := Assistant(event.partial);
    && step.Emit?
    && step.event == (if event.Start? then MessageStart(m) else MessageUpdate(m))
    && step.context != [] && step.context[|step.context| - 1] == m
  }

  /** The stream events that listeners are told of. */
  function Told(added: bool, events: seq<StreamEvent>): (told: seq<StreamEvent>)
    ensures forall i | 0 <= i < |told| :: !told[i].Terminal?
  {
    if added then Consumed(events) else FromStart(Consumed(events))
  }

  /** `steps` report these stream events and then the final message. */
  ghost predicate Reported(steps: seq<Step>, added: bool, told: seq<StreamEvent>, final: Message)
    requires forall i | 0 <= i < |told| :: !told[i].Terminal?
  {
    var announced := added || told != [];
    && |steps| == |told| + (if announced then 1 else 2)
    && (forall i | 0 <= i < |told| :: Reports(steps[i], told[i]))
    && (!announced ==> steps[0].Emit? && steps[0].event == MessageStart(final))
    && steps[|steps| - 1].Emit? && steps[|steps| - 1].event == MessageEnd(final)
  }

  /** A response is reported event by event: one step for each stream event from the first
      announcement on, in order, and then the end of the final message, which is announced
      right before if nothing was. */
  lemma {:induction false} StreamReported(context: seq<Message>, added: bool, response: Response)
    requires added ==> context != []
    ensures Reported(StreamSteps(context, added, response), added, Told(added, response.events),
                     Assistant(response.final))
    decreases |response.events|
  {
    var events := response.events;
    if events == [] || events[0].Terminal? {
      FinalReported(context, added, response);
    } else {
      var rest, final := response.(events := events[1..]), Assistant(response.final);
      ToldNext(added, events);
      hide Reported, Told;
      match events[0]
      case Start(partial) =>
        var grown := context + [Assistant(partial)];
        StreamReported(grown, true, rest);
        ReportedNext(Emit(MessageStart(Assistant(partial)), grown), StreamSteps(grown, true, rest),
                     added, events[0], Told(true, rest.events), final);
      case Delta(partial) =>
        if added {
          var updated := ReplaceLast(context, Assistant(partial));
          StreamReported(updated, true, rest);
          ReportedNext(Emit(MessageUpdate(Assistant(partial)), updated), StreamSteps(updated, true, rest),
                       added, events[0], Told(true, rest.events), final);
        } else {
          StreamReported(context, added, rest);
        }
    }
  }

  lemma FinalReported(context: seq<Message>, added: bool, response: Response)
    requires added ==> context != []
    requires response.events == [] || response.events[0].Terminal?
    ensures Reported(StreamSteps(context, added, response), added, Told(added, response.events),
                     Assistant(response.final))
  {
    var final := Assistant(response.final);
    assert Told(added, response.events) == [] by {
      hide StreamSteps;
    }
    hide Told, Reports;
    if added {
      OneFinal(final, ReplaceLast(context, final));
    } else {
      TwoFinal(final, context + [final]);
    }
  }

  lemma OneFinal(final: Message, context: seq<Message>)
    ensures Reported([Emit(MessageEnd(final), context)], true, [], final)
  {
  }

  lemma TwoFinal(final: Message, context: seq<Message>)
    ensures Reported([Emit(MessageStart(final), context), Emit(MessageEnd(final), context)], false, [], final)
  {
  }

  lemma ToldNext(added: bool, events: seq<StreamEvent>)
    requires events != [] && !events[0].Terminal?
    ensures Told(added, events) == if added || events[0].Start? then [events[0]] + Told(true, events[1..])
                                   else Told(false, events[1..])
  {
    assert ([events[0]] + Consumed(events[1..]))[1..] == Consumed(events[1..]);
  }

  lemma ReportedNext(step: Step, steps: seq<Step>, added: bool, event: StreamEvent, told: seq<StreamEvent>,
                     final: Message)
    requires forall i | 0 <= i < |told| :: !told[i].Terminal?
    requires !event.Terminal? && Reports(step, event) && Reported(steps, true, told, final)
    ensures Reported([step] + steps, added, [event] + told, final)
  {
    hide Reports;
  }

  lemma {:induction false} ContextAfterStream(context: seq<Message>, added: bool, response: Response)
    requires added ==> context != []
    requires Starts(response.events) <= if added then 0 else 1
    ensures AfterStream(context, added, response) ==
            (if added then context[..|context| - 1] else context) + [Assistant(response.final)]
    decreases |response.events|
  {
    var events := response.events;
    if events != [] && !events[0].Terminal? {
      var rest := response.(events := events[1..]);
      match events[0]
      case Start(partial) => ContextAfterStream(context + [Assistant(partial)], true, rest);
      case Delta(partial) =>
        ContextAfterStream(if added then ReplaceLast(context, Assistant(partial)) else context, added, rest);
    }
  }

  lemma FinalSafe(w: Watcher, context: seq<Message>, added: bool, response: Response)
    requires StreamState(w, context, added)
    requires response.events == [] || response.events[0].Terminal?
    ensures Leads(w, StreamSteps(context, added, response), Streamed(w, response.final))
  {
    var steps := StreamSteps(context, added, response);
    var final := Assistant(response.final);
    if added {
      OneStep(w, steps[0]);
    } else {
      var mid := Observe(w, steps[0]);
      assert steps == [steps[0]] + [steps[1]];
      OneStep(w, steps[0]);
      OneStep(mid, steps[1]);
      WatchAppend(w, [steps[0]], [steps[1]]);
    }
  }

  // ----- Injected messages

  lemma AskBracketSafe(w: Watcher, m: Message, context: seq<Message>)
    requires w.phase.Asking? && w.agent.streaming.None?
    requires |w.queue.injected| < |Given(w)| && Given(w)[|w.queue.injected|] == m
    ensures Leads(w, [Emit(MessageStart(m), context), Emit(MessageEnd(m), context)], Asked(w, [m]))
  {
    var first, second := Emit(MessageStart(m), context), Emit(MessageEnd(m), context);
    OneStep(w, first);
    OneStep(Observe(w, first), second);
    assert [first, second] == [first] + [second];
    WatchAppend(w, [first], [second]);
  }

  function Asked(w: Watcher, messages: seq<Message>): Watcher {
    w.(agent := w.agent.(messages := w.agent.messages + messages),
       queue := w.queue.(injected := w.queue.injected + messages),
       view := w.view + messages)
  }

  lemma AskedTwice(w: Watcher, m: Message, later: seq<Message>)
    ensures Asked(Asked(w, [m]), later) == Asked(w, [m] + later)
  {
    assert w.agent.messages + [m] + later == w.agent.messages + ([m] + later);
    assert w.queue.injected + [m] + later == w.queue.injected + ([m] + later);
    assert w.view + [m] + later == w.view + ([m] + later);
  }

  lemma {:induction false} InjectSafe(w: Watcher, context: seq<Message>, messages: seq<Message>)
    requires w.phase.Asking? && w.agent.streaming.None? && w.queue.injected + messages == Given(w)
    ensures Leads(w, InjectSteps(context, messages), Asked(w, messages))
    decreases |messages|
  {
    if messages == [] {
      assert Asked(w, messages) == w;
    } else {
      var m, later := messages[0], messages[1..];
      assert (w.queue.injected + messages)[|w.queue.injected|] == m;
      assert w.queue.injected + [m] + later == w.queue.injected + messages;
      AskBracketSafe(w, m, context);
      InjectSafe(Asked(w, [m]), context + [m], later);
      AskedTwice(w, m, later);
      assert [m] + later == messages;
      LeadsAppend(w, [Emit(MessageStart(m), context), Emit(MessageEnd(m), context)], Asked(w, [m]),
                  InjectSteps(context + [m], later), Asked(w, messages));
    }
  }

  lemma {:induction false} PromptsSafe(w: Watcher, context: seq<Message>, prompts: seq<Message>)
    requires w.phase.Asking? && w.agent.streaming.None? && w.queue.injected + prompts == Given(w)
    ensures Leads(w, PromptSteps(context, prompts), Asked(w, prompts))
    decreases |prompts|
  {
    if prompts == [] {
      assert Asked(w, prompts) == w;
    } else {
      var m, later := prompts[0], prompts[1..];
      assert (w.queue.injected + prompts)[|w.queue.injected|] == m;
      assert w.queue.injected + [m] + later == w.queue.injected + prompts;
      AskBracketSafe(w, m, context);
      PromptsSafe(Asked(w, [m]), context, later);
      AskedTwice(w, m, later);
      assert [m] + later == prompts;
      LeadsAppend(w, [Emit(MessageStart(m), context), Emit(MessageEnd(m), context)], Asked(w, [m]),
                  PromptSteps(context, later), Asked(w, prompts));
    }
  }

  // ----- One turn

  /** What holds between two turns and before the first LLM call, whatever comes next. */
  ghost predicate Settled(w: Watcher, ls: Loop) {
    && w.agent.streaming.None?
    && w.tools == NO_TOOLS
    && w.view == ls.context
    && w.agent.messages == w.initial + ls.newMessages
    && w.queue.turns > 0
  }

  /** The head of the inner loop: `pending` is all that was polled and not yet injected,
      and there is a reason for every turn so far. */
  ghost predicate AtHead(w: Watcher, ls: Loop, pending: seq<Message>, first: bool) {
    && Settled(w, ls)
    && !w.failed && !w.queue.stopped
    && (first || w.queue.demand || pending != [])
    && (if first then w.phase.Asking? else w.phase.Between?)
    && w.queue.injected + pending == w.prompts + w.queue.polled
    && w.queue.turns <= w.queue.demands + |w.queue.polled| + if first then 1 else 0
  }

  ghost predicate AfterTurnEnd(w: Watcher, ls: Loop) {
    && Settled(w, ls)
    && w.phase.Between?
    && w.queue.injected == w.prompts + w.queue.polled
    && w.queue.turns <= w.queue.demands + |w.queue.polled| + 1
  }

  lemma AskSafe(w: Watcher, ls: Loop, pending: seq<Message>, first: bool) returns (w': Watcher)
    requires AtHead(w, ls, pending, first)
    ensures Leads(w, AskSteps(ls.context, pending, first), w')
    ensures w'.phase.Asking? && !w'.failed && w'.agent.streaming.None? && w'.tools == NO_TOOLS
    ensures w'.view == w.view + pending && w'.initial == w.initial && w'.prompts == w.prompts
    ensures w'.agent.messages == w.agent.messages + pending
    ensures w'.queue == w.queue.(injected := w.prompts + w.queue.polled, turns := w'.queue.turns)
    ensures 0 < w'.queue.turns <= w.queue.demands + |w.queue.polled| + 1
  {
    if first {
      InjectSafe(w, ls.context, pending);
      assert AskSteps(ls.context, pending, first) == InjectSteps(ls.context, pending);
      w' := Asked(w, pending);
    } else {
      var open := Observe(w, Emit(TurnStart, ls.context));
      OneStep(w, Emit(TurnStart, ls.context));
      InjectSafe(open, ls.context, pending);
      WatchAppend(w, [Emit(TurnStart, ls.context)], InjectSteps(ls.context, pending));
      w' := Asked(open, pending);
    }
  }

  lemma AnswerSafe(w: Watcher, asked: seq<Message>, t: TurnInput) returns (w': Watcher)
    requires Starts(t.response.events) <= 1
    requires w.phase.Asking? && !w.failed && w.agent.streaming.None?
    requires w.queue.injected == w.prompts + w.queue.polled
    requires w.view == asked
    ensures Leads(w, AnswerSteps(asked, t), w') && w' == Streamed(w, t.response.final).(demanded := false)
    ensures AfterStream(asked, false, t.response) == asked + [Assistant(t.response.final)]
  {
    var called := Observe(w, CallLlm(asked));
    OneStep(w, CallLlm(asked));
    StreamSafe(called, asked, false, t.response);
    ContextAfterStream(asked, false, t.response);
    WatchAppend(w, [CallLlm(asked)], StreamSteps(asked, false, t.response));
    w' := Streamed(called, t.response.final);
  }

  /** The observer after the tools of a turn. */
  ghost predicate Acted(w: Watcher, w': Watcher, asked: seq<Message>, t: TurnInput) {
    && w'.phase.Acting? && w'.agent.streaming.None?
    && w' == w.(agent := w'.agent, tools := w'.tools, view := w.view + TurnResults(asked, t), demanded := w'.demanded)
    && (!Failed(t.response.final) ==> (w'.demanded <==> Demands(asked, t)))
    && w'.agent.messages == w.agent.messages + TurnResults(asked, t)
    && w'.tools.open == map[]
    && w'.tools.starts == w'.tools.results == |TurnResults(asked, t)|
    && w'.tools.calls == w.tools.calls
  }

  lemma ActSafe(w: Watcher, asked: seq<Message>, t: TurnInput) returns (w': Watcher)
    requires w.phase.Acting? && w.agent.streaming.None? && w.failed == Failed(t.response.final)
    requires w.tools == NO_TOOLS.(calls := ToolCalls(t.response.final.content)) && !w.demanded
    ensures Leads(w, ActSteps(asked, t), w') && Acted(w, w', asked, t)
  {
    var b := TurnBatch(asked, t);
    PlanBatchPlanned(Request(t.box, AfterStream(asked, false, t.response), t.response.final));
    if Failed(t.response.final) || b.plans == [] {
      w' := w;
      assert TurnResults(asked, t) == [];
      assert w.agent.messages + [] == w.agent.messages && w.view + [] == w.view;
    } else {
      BatchSafety.BatchSafe(w, b, t.schedule);
      w' := Watch(w, ActSteps(asked, t));
      WantsMore(w, w', b);
    }
  }

  /** A batch that has ended demands a turn exactly if one of its results does. */
  lemma WantsMore(w0: Watcher, w: Watcher, b: Batch)
    requires BatchSafety.Within(w0, w, b, |b.plans|, |b.plans|) && w.tools.open == map[] && b.plans != []
    ensures w.demanded <==> !Terminates(b)
  {
    if !Terminates(b) {
      var i: nat :| i < |b.plans| && b.plans[i].outcome.output.terminate != Some(true);
      assert i in w.tools.ended && BatchSafety.Wants(b, i);
    }
  }

  lemma EndTurnSafe(w: Watcher, m: Message, results: seq<Message>, context: seq<Message>)
    requires w.phase.Acting? && w.tools.open == map[]
    requires w.tools.starts == w.tools.results == |results| == if w.failed then 0 else |w.tools.calls|
    requires EndsWith(w.agent.messages, [m] + results) && EndsWith(context, [m] + results)
    requires context == w.view
    requires w.failed <==> Failing(m)
    ensures var step := Emit(TurnEnd(m, results), context);
            var w' := Observe(w, step);
            && Acceptable(w, step)
            && w'.phase.Between? && w'.tools == NO_TOOLS
            && w' == w.(agent := w'.agent, phase := w'.phase, tools := w'.tools)
            && w'.agent == w.agent.(errorMessage := w'.agent.errorMessage)
  {
  }

  /** The observer just before the `turn_end` of a turn that started in `w`. */
  ghost predicate TurnActed(w: Watcher, w': Watcher, pending: seq<Message>, asked: seq<Message>, t: TurnInput) {
    && w'.phase.Acting? && w'.agent.streaming.None? && w'.failed == Failed(t.response.final)
    && w'.agent.messages == w.agent.messages + pending + [Assistant(t.response.final)] + TurnResults(asked, t)
    && w'.tools.open == map[] && w'.tools.calls == ToolCalls(t.response.final.content)
    && w'.tools.starts == w'.tools.results == |TurnResults(asked, t)|
    && w'.view == asked + [Assistant(t.response.final)] + TurnResults(asked, t)
    && (!Failed(t.response.final) ==> (w'.demanded <==> Demands(asked, t)))
    && w'.initial == w.initial && w'.prompts == w.prompts
    && w'.queue == w.queue.(injected := w.prompts + w.queue.polled, turns := w'.queue.turns)
    && 0 < w'.queue.turns <= w.queue.demands + |w.queue.polled| + 1
  }

  lemma TurnBodySafe(w: Watcher, ls: Loop, pending: seq<Message>, first: bool, t: TurnInput) returns (w': Watcher)
    requires AtHead(w, ls, pending, first) && Starts(t.response.events) <= 1
    ensures var asked := ls.context + pending;
            && Leads(w, AskSteps(ls.context, pending, first) + AnswerSteps(asked, t) + ActSteps(asked, t), w')
            && TurnActed(w, w', pending, asked, t)
  {
    var asked := ls.context + pending;
    var ready := AskSafe(w, ls, pending, first);
    var streamed := AnswerSafe(ready, asked, t);
    w' := ActSafe(streamed, asked, t);
    var ask, answer, act := AskSteps(ls.context, pending, first), AnswerSteps(asked, t), ActSteps(asked, t);
    LeadsAppend(w, ask, ready, answer, streamed);
    LeadsAppend(w, ask + answer, streamed, act, w');
  }

  lemma TurnSafe(w: Watcher, ls: Loop, pending: seq<Message>, first: bool, t: TurnInput) returns (w': Watcher)
    requires AtHead(w, ls, pending, first) && Starts(t.response.events) <= 1
    ensures Leads(w, TurnSteps(ls, pending, first, t), w')
    ensures AfterTurnEnd(w', AfterTurn(ls, pending, t))
    ensures w'.failed == Failed(t.response.final)
    ensures w'.queue.demands == w.queue.demands && w'.queue.polled == w.queue.polled
    ensures !w'.queue.stopped
    ensures !Failed(t.response.final) ==> (w'.demanded <==> Demands(ls.context + pending, t))
  {
    var asked := ls.context + pending;
    var acted := TurnBodySafe(w, ls, pending, first, t);
    var body := AskSteps(ls.context, pending, first) + AnswerSteps(asked, t) + ActSteps(asked, t);
    var final, results, end := Assistant(t.response.final), TurnResults(asked, t), AfterTurn(ls, pending, t);
    ContextAfterStream(asked, false, t.response);
    w' := ClosingSafe(w, acted, ls, pending, final, results, end);
    var last := Emit(TurnEnd(final, results), end.context);
    OneStep(acted, last);
    LeadsAppend(w, body, acted, [last], w');
  }

  lemma ClosingContext(before: seq<Message>, asked: seq<Message>, final: Message, results: seq<Message>)
    ensures EndsWith(before + asked + [final] + results, [final] + results)
  {
  }

  lemma ClosingSafe(w: Watcher, acted: Watcher, ls: Loop, pending: seq<Message>,
                    final: Message, results: seq<Message>, end: Loop) returns (w': Watcher)
    requires Settled(w, ls)
    requires acted.phase.Acting? && acted.agent.streaming.None? && acted.tools.open == map[]
    requires acted.agent.messages == w.agent.messages + pending + [final] + results
    requires acted.tools.starts == acted.tools.results == |results| == if acted.failed then 0 else |acted.tools.calls|
    requires acted.view == end.context && acted.initial == w.initial
    requires acted.failed <==> Failing(final)
    requires acted.queue.injected == acted.prompts + acted.queue.polled
    requires 0 < acted.queue.turns <= acted.queue.demands + |acted.queue.polled| + 1
    requires end.newMessages == ls.newMessages + pending + [final] + results
    requires end.context == ls.context + pending + [final] + results
    ensures var last := Emit(TurnEnd(final, results), end.context);
            && Acceptable(acted, last) && w' == Observe(acted, last)
            && AfterTurnEnd(w', end) && w'.failed == acted.failed && w'.queue == acted.queue
            && w'.demanded == acted.demanded
  {
    ClosingContext(w.agent.messages, pending, final, results);
    ClosingContext(ls.context, pending, final, results);
    assert acted.agent.messages == w.initial + end.newMessages;
    EndTurnSafe(acted, final, results, end.context);
    w' := Observe(acted, Emit(TurnEnd(final, results), end.context));
  }

  // ----- Polls

  lemma {:induction false} ActionsSafe(w: Watcher, actions: seq<UserAction>)
    requires !w.phase.Before? && !w.phase.Over?
    ensures Leads(w, ActionSteps(actions), w)
  {
    if actions != [] {
      OneStep(w, UserDoes(actions[0]));
      ActionsSafe(w, actions[1..]);
      WatchAppend(w, [UserDoes(actions[0])], ActionSteps(actions[1..]));
    }
  }

  function PolledWatcher(w: Watcher, name: QueueName, drained: seq<Message>): Watcher {
    Observe(w, Poll(name, drained))
  }

  lemma PollSafe(w: Watcher, name: QueueName, actions: seq<UserAction>, drained: seq<Message>)
    requires w.phase.Between? || (w.phase.Asking? && name.Steering?)
    requires !w.failed && !w.queue.stopped && w.queue.injected == Given(w)
    requires name.FollowUp? ==> w.queue.quiet && !w.queue.demand
    ensures Leads(w, ActionSteps(actions) + [Poll(name, drained)], PolledWatcher(w, name, drained))
  {
    ActionsSafe(w, actions);
    OneStep(w, Poll(name, drained));
    WatchAppend(w, ActionSteps(actions), [Poll(name, drained)]);
  }

  // ----- The nested loops

  ghost predicate WellStreamed(script: seq<TurnInput>) {
    forall i | 0 <= i < |script| :: Starts(script[i].response.events) <= 1
  }

  /** The observer is satisfied, and a finished run is over. */
  ghost predicate Accepted(w: Watcher, run: Run) {
    Safe(w, run.steps) && (run.finished ==> Watch(w, run.steps).phase.Over?)
  }

  lemma AcceptAfter(w: Watcher, steps: seq<Step>, w': Watcher, run: Run)
    requires Leads(w, steps, w') && Accepted(w', run)
    ensures Accepted(w, run.After(steps))
  {
    WatchAppend(w, steps, run.steps);
  }

  /** The four exits of the loop: a failed message, a stop by the application, or nothing
      left to do after the two polls that say so. */
  predicate MayEnd(w: Watcher) {
    w.failed || w.queue.stopped || (w.queue.quiet && w.queue.dry && !w.queue.demand)
  }

  lemma CloseSafe(w: Watcher, ls: Loop)
    requires AfterTurnEnd(w, ls) && MayEnd(w)
    ensures Accepted(w, Close(ls))
  {
    OneStep(w, Emit(AgentEnd(ls.newMessages), ls.context));
  }

  lemma {:induction false} RunFromSafe(w: Watcher, ls: Loop, pending: seq<Message>, first: bool, script: seq<TurnInput>)
    requires AtHead(w, ls, pending, first) && WellStreamed(script)
    ensures Accepted(w, RunFrom(ls, pending, first, script))
    decreases |script|
  {
    if script != [] {
      var t := script[0];
      var w' := TurnSafe(w, ls, pending, first, t);
      AfterResponseSafe(w', ls, pending, t, script[1..]);
      AcceptAfter(w, TurnSteps(ls, pending, first, t), w', AfterResponse(ls, pending, t, script[1..]));
    }
  }

  lemma {:induction false} AfterResponseSafe(w: Watcher, ls: Loop, pending: seq<Message>, t: TurnInput,
                                             script: seq<TurnInput>)
    requires AfterTurnEnd(w, AfterTurn(ls, pending, t)) && WellStreamed(script)
    requires w.failed == Failed(t.response.final) && !w.queue.stopped
    requires !w.failed ==> (w.demanded <==> Demands(ls.context + pending, t))
    ensures Accepted(w, AfterResponse(ls, pending, t, script))
    decreases |script| + 1, 2
  {
    var end := AfterTurn(ls, pending, t);
    if Failed(t.response.final) {
      CloseSafe(w, end);
    } else {
      var more := Demands(ls.context + pending, t);
      var hooked := AfterPrepare(end, t);
      var w' := HookSafe(w, end, t, more);
      if t.stop {
        CloseSafe(w', hooked);
        AcceptAfter(w, HookSteps(end, t, more), w', Close(hooked));
      } else {
        AfterStopSafe(w', hooked, more, t, script);
        AcceptAfter(w, HookSteps(end, t, more), w', AfterStop(hooked, more, t, script));
      }
    }
  }

  lemma HookSafe(w: Watcher, end: Loop, t: TurnInput, more: bool) returns (w': Watcher)
    requires AfterTurnEnd(w, end) && !w.failed && (w.demanded <==> more)
    ensures Leads(w, HookSteps(end, t, more), w')
    ensures AfterTurnEnd(w', AfterPrepare(end, t)) && !w'.failed
    ensures w'.queue.demand == more && w'.queue.stopped == t.stop
    ensures more ==> w'.queue.turns <= w'.queue.demands + |w'.queue.polled|
  {
    var done, decide := TurnDone(end.context, end.newMessages, more), Decide(t.stop);
    var prepared := Observe(w, done);
    OneStep(w, done);
    if t.context.Some? {
      var replace := Override(t.context.value);
      OneStep(prepared, replace);
      WatchAppend(w, [done], [replace]);
      prepared := Observe(prepared, replace);
    } else {
      assert [done] + [] == [done];
    }
    OneStep(prepared, decide);
    w' := Observe(prepared, decide);
    LeadsAppend(w, [done] + if t.context.Some? then [Override(t.context.value)] else [], prepared, [decide], w');
  }

  lemma {:induction false} AfterStopSafe(w: Watcher, ls: Loop, more: bool, t: TurnInput, script: seq<TurnInput>)
    requires AfterTurnEnd(w, ls) && !w.failed && WellStreamed(script)
    requires w.queue.demand == more && !w.queue.stopped
    requires more ==> w.queue.turns <= w.queue.demands + |w.queue.polled|
    ensures Accepted(w, AfterStop(ls, more, t, script))
    decreases |script| + 1, 1
  {
    var steered := PolledMessages(ls.queues, Steering, t.beforeSteering);
    var next := AfterSteering(ls, t);
    PollSafe(w, Steering, t.beforeSteering, steered);
    var w' := PolledWatcher(w, Steering, steered);
    assert w'.queue.injected + steered == w'.prompts + w'.queue.polled;
    if more || steered != [] {
      RunFromSafe(w', next, steered, false, script);
      AcceptAfter(w, PollSteps(ls.queues, Steering, t.beforeSteering), w', RunFrom(next, steered, false, script));
    } else {
      assert w'.queue.injected == w'.prompts + w'.queue.polled;
      WouldStopSafe(w', next, t, script);
      AcceptAfter(w, PollSteps(ls.queues, Steering, t.beforeSteering), w', WouldStop(next, t, script));
    }
  }

  lemma {:induction false} WouldStopSafe(w: Watcher, ls: Loop, t: TurnInput, script: seq<TurnInput>)
    requires AfterTurnEnd(w, ls) && !w.failed && WellStreamed(script)
    requires w.queue.quiet && !w.queue.demand && !w.queue.stopped
    ensures Accepted(w, WouldStop(ls, t, script))
    decreases |script| + 1, 0
  {
    var followed := PolledMessages(ls.queues, FollowUp, t.beforeFollowUp);
    var next := AfterFollowUp(ls, t);
    PollSafe(w, FollowUp, t.beforeFollowUp, followed);
    var w' := PolledWatcher(w, FollowUp, followed);
    assert w'.queue.injected + followed == w'.prompts + w'.queue.polled;
    if followed != [] {
      RunFromSafe(w', next, followed, false, script);
      AcceptAfter(w, PollSteps(ls.queues, FollowUp, t.beforeFollowUp), w', RunFrom(next, followed, false, script));
    } else {
      assert w'.queue.injected == w'.prompts + w'.queue.polled;
      CloseSafe(w', next);
      AcceptAfter(w, PollSteps(ls.queues, FollowUp, t.beforeFollowUp), w', Close(next));
    }
  }

  // ----- Whole runs

  /** An agent between two runs. */
  predicate Idle(agent: AgentState) {
    agent.streaming.None? && agent.pending == {}
  }

  lemma FirstPollSafe(w: Watcher, queues: Queues, skip: bool, actions: seq<UserAction>)
    requires w.phase.Asking? && !w.failed && !w.queue.stopped && w.queue.injected == Given(w)
    ensures var (polls, pending, _) := FirstPoll(queues, skip, actions);
            Leads(w, polls, PolledWatcher(w, Steering, pending))
  {
    PollSafe(w, Steering, actions, if skip then [] else PolledMessages(queues, Steering, actions));
  }

  lemma OpeningSafe(agent: AgentState, prompts: seq<Message>, context: seq<Message>) returns (w': Watcher)
    requires Idle(agent)
    ensures Leads(NewWatcher(agent, prompts),
                  [Emit(AgentStart, context), Emit(TurnStart, context)] + PromptSteps(context, prompts), w')
    ensures w' == NewWatcher(agent, prompts).(
                    agent := agent.(messages := agent.messages + prompts),
                    phase := Asking,
                    queue := QueueWatch(1, 0, prompts, [], false, false, false, false),
                    view := agent.messages + prompts)
  {
    var w := NewWatcher(agent, prompts);
    var first, second := Emit(AgentStart, context), Emit(TurnStart, context);
    var started := Observe(w, first);
    var turnOpen := Observe(started, second);
    assert [first, second] == [first] + [second];
    OneStep(w, first);
    OneStep(started, second);
    WatchAppend(w, [first], [second]);
    PromptsSafe(turnOpen, context, prompts);
    w' := Asked(turnOpen, prompts);
    LeadsAppend(w, [first, second], turnOpen, PromptSteps(context, prompts), w');
    assert [] + prompts == prompts;
  }

  /** The main theorem: every run, under every script and schedule, keeps every rule. */
  lemma RunIsSafe(agent: AgentState, queues: Queues, input: RunInput)
    requires Idle(agent) && WellStreamed(input.script)
    ensures Accepted(NewWatcher(agent, input.prompts), WholeRun(agent.messages, queues, input))
  {
    var context := agent.messages + input.prompts;
    var (polls, pending, polled) := FirstPoll(queues, input.skipFirstPoll, input.beforeStart);
    var w := NewWatcher(agent, input.prompts);
    var opening := [Emit(AgentStart, context), Emit(TurnStart, context)] + PromptSteps(context, input.prompts);
    var prompted := OpeningSafe(agent, input.prompts, context);
    FirstPollSafe(prompted, queues, input.skipFirstPoll, input.beforeStart);
    var ready := PolledWatcher(prompted, Steering, pending);
    LeadsAppend(w, opening, prompted, polls, ready);
    var ls := Loop(context, input.prompts, polled);
    assert AtHead(ready, ls, pending, true);
    RunFromSafe(ready, ls, pending, true, input.script);
    AcceptAfter(w, opening + polls, ready, RunFrom(ls, pending, true, input.script));
  }
}
