/** The guarantees of a run, stated over its steps alone: the observer appears only in proofs. */
module RunGuarantees {
  import opened Messages
  import opened Reducer
  import opened LoopSpec
  import opened Watching
  import opened RunInvariants
  import opened LoopSafety
  import opened QueueConservation

  // ----- Plain bookkeeping over steps

  /** Counts and lists that anyone can read off a sequence of steps; nothing here knows
      which steps are allowed. `open` holds the calls started and not yet ended. */
  datatype Summary = Summary(
    turns: nat,
    turnEnds: nat,
    messageStarts: nat,
    messageEnds: nat,
    current: Option<Message>,
    demands: nat,
    asking: bool,
    injected: seq<Message>,
    polled: seq<Message>,
    lastSteering: Option<seq<Message>>,
    lastFollowUp: Option<seq<Message>>,
    lastDemand: Option<bool>,
    stopped: bool,
    failed: bool,
    open: map<nat, string>)

  function Count(s: Summary, step: Step): Summary {
    match step
    case Emit(TurnStart, _) => s.(turns := s.turns + 1, asking := true)
    case Emit(TurnEnd(m, _), _) => s.(turnEnds := s.turnEnds + 1, failed := Failing(m))
    case Emit(MessageStart(m), _) => s.(messageStarts := s.messageStarts + 1, current := Some(m))
    case Emit(MessageEnd(m), _) =>
      s.(messageEnds := s.messageEnds + 1, current := None,
         injected := if s.asking then s.injected + [m] else s.injected)
    case Emit(ToolStart(slot, call), _) => s.(open := s.open[slot := call.id])
    case Emit(ToolEnd(slot, _, _, _), _) => s.(open := s.open - {slot})
    case CallLlm(_) => s.(asking := false)
    case TurnDone(_, _, more) =>
      s.(demands := s.demands + (if more then 1 else 0),
         lastDemand := Some(more), lastSteering := None, lastFollowUp := None)
    case Decide(stop) => s.(stopped := stop)
    case Poll(name, drained) =>
      s.(polled := s.polled + drained,
         lastSteering := if name.Steering? then Some(drained) else s.lastSteering,
         lastFollowUp := if name.FollowUp? then Some(drained) else None)
    case _ => s
  }

  function Summarize(steps: seq<Step>): Summary {
    if steps == [] then Summary(0, 0, 0, 0, None, 0, false, [], [], None, None, None, false, false, map[])
    else Count(Summarize(steps[..|steps| - 1]), steps[|steps| - 1])
  }

  predicate InTurn(phase: Phase) {
    !phase.Before? && !phase.Between? && !phase.Over?
  }

  predicate InMessage(phase: Phase) {
    phase.AskBracket? || phase.Streaming? || phase.ResultBracket?
  }

  ghost predicate PhasesAgree(w: Watcher, s: Summary) {
    && s.turns == s.turnEnds + (if InTurn(w.phase) then 1 else 0)
    && s.messageStarts == s.messageEnds + (if InMessage(w.phase) then 1 else 0)
    && (s.asking <==> w.phase.Asking? || w.phase.AskBracket?)
    && (if w.phase.AskBracket? || w.phase.ResultBracket? then s.current == Some(w.phase.message)
        else if w.phase.Streaming? then s.current.Some? && s.current.value.Assistant?
        else s.current.None?)
  }

  ghost predicate CountsAgree(w: Watcher, s: Summary) {
    && w.queue.turns == s.turns
    && w.queue.demands == s.demands
    && w.queue.injected == s.injected
    && w.queue.polled == s.polled
  }

  ghost predicate FlagsAgree(q: QueueWatch, s: Summary) {
    && (q.quiet <==> s.lastSteering == Some([]))
    && (q.dry <==> s.lastFollowUp == Some([]))
    && (q.demand <==> s.lastDemand == Some(true))
    && q.stopped == s.stopped
  }

  ghost predicate FailuresAgree(w: Watcher, s: Summary) {
    w.phase.Before? || w.phase.Between? ==> w.failed == s.failed
  }

  ghost predicate Agrees(w: Watcher, s: Summary) {
    PhasesAgree(w, s) && CountsAgree(w, s) && FlagsAgree(w.queue, s) && FailuresAgree(w, s) && w.tools.open == s.open
  }

  lemma PhasesAgreeStep(w: Watcher, s: Summary, step: Step)
    requires PhasesAgree(w, s) && Acceptable(w, step)
    ensures PhasesAgree(Observe(w, step), Count(s, step))
  {
    hide ToolRule, ContextRule, QueueRule, WatchTools, WatchQueue, ReduceStep;
  }

  lemma CountsAgreeStep(w: Watcher, s: Summary, step: Step)
    requires PhasesAgree(w, s) && CountsAgree(w, s) && Acceptable(w, step)
    ensures CountsAgree(Observe(w, step), Count(s, step))
  {
    hide ToolRule, ContextRule, QueueRule, WatchTools, ReduceStep, FlagsAgree;
  }

  lemma FlagsAgreeStep(w: Watcher, s: Summary, step: Step)
    requires FlagsAgree(w.queue, s)
    ensures FlagsAgree(Observe(w, step).queue, Count(s, step))
  {
    FlagsKept(w, s, step);
    hide NextPhase, WatchTools, ReduceStep, WatchQueue, FlagsAgree, Count;
  }

  lemma FlagsKept(w: Watcher, s: Summary, step: Step)
    requires FlagsAgree(w.queue, s)
    ensures FlagsAgree(WatchQueue(w, step), Count(s, step))
  {
    if step.Emit? {
      EventLeavesFlags(w, step);
      EventLeavesAnswers(s, step);
      hide WatchQueue, Count;
    }
  }

  lemma EventLeavesFlags(w: Watcher, step: Step)
    requires step.Emit?
    ensures var (q, q') := (w.queue, WatchQueue(w, step));
            q'.quiet == q.quiet && q'.dry == q.dry && q'.demand == q.demand && q'.stopped == q.stopped
  {
  }

  lemma EventLeavesAnswers(s: Summary, step: Step)
    requires step.Emit?
    ensures var s' := Count(s, step);
            && s'.lastSteering == s.lastSteering && s'.lastFollowUp == s.lastFollowUp
            && s'.lastDemand == s.lastDemand && s'.stopped == s.stopped
  {
  }

  lemma FailuresAgreeStep(w: Watcher, s: Summary, step: Step)
    requires FailuresAgree(w, s) && Acceptable(w, step)
    ensures FailuresAgree(Observe(w, step), Count(s, step))
  {
    hide ContextRule, QueueRule, WatchTools, WatchQueue, ReduceStep;
  }

  /** How one step changes the calls started and not yet ended. */
  function NextOpen(open: map<nat, string>, step: Step): map<nat, string> {
    match step
    case Emit(ToolStart(slot, call), _) => open[slot := call.id]
    case Emit(ToolEnd(slot, _, _, _), _) => open - {slot}
    case _ => open
  }

  lemma WatcherOpens(w: Watcher, step: Step)
    requires ToolsSound(w) && Acceptable(w, step)
    ensures Observe(w, step).tools.open == NextOpen(w.tools.open, step)
  {
    hide ContextRule, QueueRule, WatchQueue, ReduceStep, Answers;
    if step.Emit? && step.event.MessageEnd? && w.phase.Streaming? {
      assert w.tools == NO_TOOLS;
    }
  }

  lemma SummaryOpens(s: Summary, step: Step)
    ensures Count(s, step).open == NextOpen(s.open, step)
  {
  }

  lemma AgreesStep(w: Watcher, s: Summary, step: Step)
    requires Agrees(w, s) && ToolsSound(w) && Acceptable(w, step)
    ensures Agrees(Observe(w, step), Count(s, step))
  {
    hide PhasesAgree, CountsAgree, FlagsAgree, FailuresAgree, ToolsSound, Acceptable, Observe, Count;
    PhasesAgreeStep(w, s, step);
    CountsAgreeStep(w, s, step);
    FlagsAgreeStep(w, s, step);
    FailuresAgreeStep(w, s, step);
    WatcherOpens(w, step);
    SummaryOpens(s, step);
  }

  lemma {:induction false} AgreesAt(w: Watcher, steps: seq<Step>, k: nat)
    requires Agrees(w, Summarize([])) && Sound(w) && Safe(w, steps) && k <= |steps|
    ensures Agrees(Watch(w, steps[..k]), Summarize(steps[..k]))
  {
    if k > 0 {
      AgreesAt(w, steps, k - 1);
      SafeEverywhere(w, steps, k - 1);
      var before := steps[..k - 1];
      var at := Watch(w, before);
      SoundRun(w, before);
      NextAt(w, steps, k - 1);
      assert steps[..k][..k - 1] == before;
      AgreesStep(at, Summarize(before), steps[k - 1]);
    }
  }

  lemma NextAt(w: Watcher, steps: seq<Step>, k: nat)
    requires k < |steps|
    ensures Watch(w, steps[..k + 1]) == Observe(Watch(w, steps[..k]), steps[k])
  {
    assert steps[..k + 1] == steps[..k] + [steps[k]];
    WatchAppend(w, steps[..k], [steps[k]]);
    OneStep(Watch(w, steps[..k]), steps[k]);
  }

  /** The steps of a run that starts from `agent` with `prompts` and breaks no rule. */
  ghost predicate Obeys(agent: AgentState, prompts: seq<Message>, steps: seq<Step>) {
    Idle(agent) && Safe(NewWatcher(agent, prompts), steps)
  }

  /** A run that is cut obeys the rules up to the cut. */
  lemma ObeysPrefix(agent: AgentState, prompts: seq<Message>, steps: seq<Step>, k: nat)
    requires Obeys(agent, prompts, steps) && k <= |steps|
    ensures Obeys(agent, prompts, steps[..k])
  {
    assert steps == steps[..k] + steps[k..];
    WatchAppend(NewWatcher(agent, prompts), steps[..k], steps[k..]);
  }

  /** The observer after the first `k` steps. */
  function At(agent: AgentState, prompts: seq<Message>, steps: seq<Step>, k: nat): Watcher
    requires k <= |steps|
  {
    Watch(NewWatcher(agent, prompts), steps[..k])
  }

  /** Everything known about a run after its first `k` steps. */
  lemma Known(agent: AgentState, prompts: seq<Message>, steps: seq<Step>, k: nat) returns (w: Watcher)
    requires Obeys(agent, prompts, steps) && k <= |steps|
    ensures w == At(agent, prompts, steps, k)
    ensures Sound(w) && Agrees(w, Summarize(steps[..k]))
    ensures w.agent == Replay(agent, steps[..k]) && w.view == ContextAfter(agent.messages, steps[..k])
    ensures w.initial == agent.messages && w.prompts == prompts
    ensures k < |steps| ==> Acceptable(w, steps[k])
  {
    w := NewWatcher(agent, prompts);
    assert steps == steps[..k] + steps[k..];
    WatchAppend(w, steps[..k], steps[k..]);
    AgreesAt(w, steps, k);
    SoundRun(w, steps[..k]);
    WatcherReplays(w, steps[..k]);
    WatchKeeps(w, steps[..k]);
    w := At(agent, prompts, steps, k);
  }

  lemma SafeTail(agent: AgentState, prompts: seq<Message>, steps: seq<Step>, i: nat, k: nat)
    requires Obeys(agent, prompts, steps) && i <= k <= |steps|
    ensures Safe(At(agent, prompts, steps, i), steps[i..k])
    ensures Watch(At(agent, prompts, steps, i), steps[i..k]) == At(agent, prompts, steps, k)
  {
    var w := NewWatcher(agent, prompts);
    assert steps == steps[..k] + steps[k..];
    WatchAppend(w, steps[..k], steps[k..]);
    assert steps[..k] == steps[..i] + steps[i..k];
    WatchAppend(w, steps[..i], steps[i..k]);
  }

  lemma {:induction false} WatchKeeps(w: Watcher, steps: seq<Step>)
    ensures Watch(w, steps).initial == w.initial && Watch(w, steps).prompts == w.prompts
    decreases |steps|
  {
    if steps != [] {
      WatchKeeps(Observe(w, steps[0]), steps[1..]);
    }
  }

  // ----- The grammar of a run

  lemma {:induction false} NeverBefore(w: Watcher, steps: seq<Step>)
    requires Safe(w, steps) && !w.phase.Before?
    ensures !Watch(w, steps).phase.Before?
    decreases |steps|
  {
    if steps != [] {
      NeverBefore(Observe(w, steps[0]), steps[1..]);
    }
  }

  predicate Is(step: Step, event: Event) {
    step.Emit? && step.event == event
  }

  lemma StartStep(w: Watcher, step: Step)
    requires Acceptable(w, step)
    ensures Is(step, AgentStart) <==> w.phase.Before?
    ensures !Observe(w, step).phase.Before?
  {
    hide ToolRule, ContextRule, QueueRule, WatchTools, WatchQueue, ReduceStep;
  }

  lemma StartIsFirst(agent: AgentState, prompts: seq<Message>, steps: seq<Step>, k: nat)
    requires Obeys(agent, prompts, steps) && k < |steps|
    ensures Is(steps[k], AgentStart) <==> k == 0
  {
    hide Acceptable, Sound, Agrees, Observe, Safe, Is;
    var w := Known(agent, prompts, steps, k);
    StartStep(w, steps[k]);
    if k == 0 {
      assert steps[..0] == [];
    } else {
      NextAt(NewWatcher(agent, prompts), steps, 0);
      var first := Known(agent, prompts, steps, 0);
      StartStep(first, steps[0]);
      SafeTail(agent, prompts, steps, 1, k);
      NeverBefore(At(agent, prompts, steps, 1), steps[1..k]);
    }
  }

  lemma NothingAfterEnd(w: Watcher, step: Step, next: Step)
    requires Acceptable(w, step) && step.Emit? && step.event.AgentEnd?
    ensures !Acceptable(Observe(w, step), next)
  {
    hide ToolRule, ContextRule, QueueRule, WatchTools, WatchQueue, ReduceStep;
  }

  lemma EndIsLast(agent: AgentState, prompts: seq<Message>, steps: seq<Step>, k: nat)
    requires Obeys(agent, prompts, steps) && k < |steps|
    requires steps[k].Emit? && steps[k].event.AgentEnd?
    ensures k == |steps| - 1
  {
    if k < |steps| - 1 {
      hide Acceptable, Sound, Agrees, Observe, Safe;
      var w := Known(agent, prompts, steps, k);
      NextAt(NewWatcher(agent, prompts), steps, k);
      var next := Known(agent, prompts, steps, k + 1);
      NothingAfterEnd(w, steps[k], steps[k + 1]);
    }
  }

  /** What step `k` does to the message brackets, given the message open before it. */
  predicate Bracketed(current: Option<Message>, step: Step) {
    match step
    case Emit(MessageStart(_), _) => current.None?
    case Emit(MessageUpdate(m), _) => current.Some? && current.value.Assistant? && m.Assistant?
    case Emit(MessageEnd(m), _) => current.Some? && (current.value == m || (current.value.Assistant? && m.Assistant?))
    case Emit(TurnStart, _) => current.None?
    case Emit(TurnEnd(_, _), _) => current.None?
    case _ => true
  }

  /** Turns never overlap; messages never overlap and lie inside turns, each closed by an
      end of its own; updates lie inside an assistant's message; `agent_start` comes first
      and only first; `agent_end` comes last, after at least one turn, with all closed. */
  lemma TraceGrammar(agent: AgentState, prompts: seq<Message>, steps: seq<Step>, k: nat)
    requires Obeys(agent, prompts, steps) && k < |steps|
    ensures var s := Summarize(steps[..k]);
            && s.turnEnds <= s.turns <= s.turnEnds + 1
            && s.messageEnds <= s.messageStarts <= s.messageEnds + s.turns - s.turnEnds
            && Bracketed(s.current, steps[k])
            && (Is(steps[k], AgentStart) <==> k == 0)
            && (steps[k].Emit? && steps[k].event.AgentEnd? ==> k == |steps| - 1 && s.turns == s.turnEnds > 0)
  {
    StartIsFirst(agent, prompts, steps, k);
    if steps[k].Emit? && steps[k].event.AgentEnd? {
      EndIsLast(agent, prompts, steps, k);
    }
    var w := Known(agent, prompts, steps, k);
  }

  // ----- Two replicas of the transcript

  /** What a step shows of the loop's context, if that should be `view`. */
  predicate Shows(step: Step, view: seq<Message>) {
    match step
    case CallLlm(context) => context == view
    case Emit(TurnEnd(_, _), context) => context == view
    case TurnDone(context, _, _) => context == view
    case Emit(MessageUpdate(m), context) => context == view + [m]
    case _ => true
  }

  /** At every LLM call and every `turn_end` the loop's context is the latest replacement by
      `prepareNextTurn`, or else the transcript the run started from, and after it everything
      committed since; while a response streams, that and the partial message the agent holds.
      Until the first replacement this is the agent's transcript. */
  lemma ReplicaAgreement(agent: AgentState, prompts: seq<Message>, steps: seq<Step>, k: nat)
    requires Obeys(agent, prompts, steps) && k < |steps|
    ensures Shows(steps[k], ContextAfter(agent.messages, steps[..k]))
    ensures steps[k].Emit? && steps[k].event.MessageUpdate? ==>
      Replay(agent, steps[..k + 1]).streaming == Some(steps[k].event.message)
    ensures NoOverride(steps[..k]) ==> ContextAfter(agent.messages, steps[..k]) == Replay(agent, steps[..k]).messages
  {
    var w := Known(agent, prompts, steps, k);
    assert steps[..k + 1][..k] == steps[..k];
    if NoOverride(steps[..k]) {
      assert [] + steps[..k] == steps[..k];
      ContextGrows(agent.messages, [], steps[..k]);
      ReplayTranscript(agent, steps[..k]);
    }
  }

  /** After a replacement the context is the replacement and everything committed since. */
  lemma SinceOverride(context: seq<Message>, steps: seq<Step>, i: nat, k: nat)
    requires i < k <= |steps| && steps[i].Override? && NoOverride(steps[i + 1..k])
    ensures ContextAfter(context, steps[..k]) == steps[i].context + Committed(steps[i + 1..k])
  {
    assert steps[..k] == steps[..i + 1] + steps[i + 1..k];
    assert steps[..i + 1][..i] == steps[..i];
    ContextGrows(context, steps[..i + 1], steps[i + 1..k]);
  }

  /** Without a replacement in between, the context at an earlier step is the front of it. */
  lemma ViewGrows(context: seq<Message>, steps: seq<Step>, i: nat, k: nat)
    requires i <= k <= |steps| && NoOverride(steps[i..k])
    ensures ContextAfter(context, steps[..i]) <= ContextAfter(context, steps[..k])
  {
    assert steps[..k] == steps[..i] + steps[i..k];
    ContextGrows(context, steps[..i], steps[i..k]);
  }

  /** With or without overrides, `agent_end` reports exactly what the run committed to the
      transcript the agent had before. */
  lemma NewMessagesExact(agent: AgentState, prompts: seq<Message>, steps: seq<Step>, k: nat)
    requires Obeys(agent, prompts, steps) && k < |steps|
    requires steps[k].Emit? && steps[k].event.AgentEnd?
    ensures Replay(agent, steps[..k]).messages == agent.messages + steps[k].event.messages
    ensures Committed(steps) == steps[k].event.messages
  {
    var w := Known(agent, prompts, steps, k);
    EndIsLast(agent, prompts, steps, k);
    ReplayTranscript(agent, steps[..k]);
    var base, added := agent.messages, steps[k].event.messages;
    assert base + added == base + Committed(steps[..k]);
    assert added == (base + added)[|base|..] == Committed(steps[..k]);
  }

  // ----- Tool calls and their results

  lemma {:induction false} FailedStays(w: Watcher, steps: seq<Step>)
    requires Safe(w, steps) && w.failed && (w.phase.Between? || w.phase.Over?)
    ensures var w' := Watch(w, steps); w'.failed && (w'.phase.Between? || w'.phase.Over?)
    decreases |steps|
  {
    if steps != [] {
      FailedStays(Observe(w, steps[0]), steps[1..]);
    }
  }

  lemma TurnEndTells(w: Watcher, step: Step)
    requires Acceptable(w, step) && step.Emit? && step.event.TurnEnd?
    ensures w.failed <==> Failing(step.event.message)
  {
    hide ContextRule, QueueRule;
  }

  lemma NotFailedBefore(agent: AgentState, prompts: seq<Message>, steps: seq<Step>, i: nat, k: nat)
    requires Obeys(agent, prompts, steps) && i < k < |steps|
    requires steps[i].Emit? && steps[i].event.TurnEnd? && steps[k].CallLlm?
    ensures !Failing(steps[i].event.message)
  {
    hide Acceptable, Sound, Agrees, Observe, Safe;
    var w := Known(agent, prompts, steps, i);
    TurnEndTells(w, steps[i]);
    FailedAfterEnd(w, steps[i]);
    var w' := Known(agent, prompts, steps, k);
    if w.failed {
      NextAt(NewWatcher(agent, prompts), steps, i);
      SafeTail(agent, prompts, steps, i + 1, k);
      FailedStays(Observe(w, steps[i]), steps[i + 1..k]);
      NoCallBetween(w', steps[k]);
    }
  }

  lemma FailedAfterEnd(w: Watcher, step: Step)
    requires Acceptable(w, step) && step.Emit? && step.event.TurnEnd?
    ensures Observe(w, step).failed == w.failed && Observe(w, step).phase.Between?
  {
    hide ToolRule, ContextRule, QueueRule, WatchTools, WatchQueue, ReduceStep;
  }

  lemma NoCallBetween(w: Watcher, step: Step)
    requires Acceptable(w, step) && step.CallLlm?
    ensures !w.phase.Between? && !w.phase.Over?
  {
    hide ToolRule, ContextRule, QueueRule;
  }

  /** The turn that ends at step `i` leaves its message and one matching result per call at
      the end of the transcript, and of the context. */
  lemma TurnLeavesPairs(agent: AgentState, prompts: seq<Message>, steps: seq<Step>, i: nat)
    requires Obeys(agent, prompts, steps) && i < |steps|
    requires steps[i].Emit? && steps[i].event.TurnEnd? && !Failing(steps[i].event.message)
    ensures var transcript := Replay(agent, steps[..i]).messages;
            Paired(transcript, |transcript|, steps[i].event.message, steps[i].event.toolResults)
    ensures Paired(steps[i].context, |steps[i].context|, steps[i].event.message, steps[i].event.toolResults)
  {
    hide Obeys, Agrees, PendingSound, InjectSound;
    var w := Known(agent, prompts, steps, i);
    TurnEndTells(w, steps[i]);
    TurnPairs(w, steps[i]);
  }

  lemma TurnPairs(w: Watcher, step: Step)
    requires ToolsSound(w) && PairingSound(w) && Acceptable(w, step)
    requires step.Emit? && step.event.TurnEnd? && !w.failed
    ensures Paired(w.agent.messages, |w.agent.messages|, step.event.message, step.event.toolResults)
    ensures Paired(step.context, |step.context|, step.event.message, step.event.toolResults)
  {
    hide QueueRule;
    var m, results := step.event.message, step.event.toolResults;
    var transcript := w.agent.messages;
    var p := |transcript| - |results| - 1;
    assert transcript[p..] == [m] + results && transcript[p] == m;
    assert Current(w, p);
    forall j | 0 <= j < |results| ensures Answers(results[j], ToolCalls(m.body.content)[j]) {
      assert transcript[p + 1 + j] == transcript[p..][1 + j] == results[j];
    }
  }

  /** The messages up to `end` finish with `m` and its results, one per tool call, in order. */
  ghost predicate Paired(context: seq<Message>, end: nat, m: Message, results: seq<Message>) {
    && |results| < end <= |context|
    && context[end - |results| - 1..end] == [m] + results
    && m.Assistant? && |results| == |ToolCalls(m.body.content)|
    && forall j | 0 <= j < |results| :: Answers(results[j], ToolCalls(m.body.content)[j])
  }

  /** A longer context pairs a message at the same places. */
  lemma PairedInFront(front: seq<Message>, context: seq<Message>, end: nat, m: Message, results: seq<Message>)
    requires front <= context && end <= |front|
    ensures Paired(context, end, m, results) <==> Paired(front, end, m, results)
  {
    if |results| < end {
      assert context[end - |results| - 1..end] == front[end - |results| - 1..end];
    }
  }

  /** Whenever the model is called, every turn that ended since the context was last replaced
      sits in it as its assistant message followed at once by one matching result per tool
      call, in order, where its `turn_end` left it. */
  lemma ToolCallPairing(agent: AgentState, prompts: seq<Message>, steps: seq<Step>, i: nat, k: nat)
    requires Obeys(agent, prompts, steps) && i < k < |steps|
    requires steps[i].Emit? && steps[i].event.TurnEnd? && steps[k].CallLlm? && NoOverride(steps[i..k])
    ensures steps[i].context <= steps[k].context
    ensures Paired(steps[k].context, |steps[i].context|, steps[i].event.message, steps[i].event.toolResults)
  {
    hide Obeys, Paired;
    ReplicaAgreement(agent, prompts, steps, i);
    ReplicaAgreement(agent, prompts, steps, k);
    ViewGrows(agent.messages, steps, i, k);
    NotFailedBefore(agent, prompts, steps, i, k);
    TurnLeavesPairs(agent, prompts, steps, i);
    PairedInFront(steps[i].context, steps[k].context, |steps[i].context|,
                  steps[i].event.message, steps[i].event.toolResults);
  }

  /** A turn that ended before the latest replacement is paired in what that showed the model
      exactly where the replacement itself pairs it. */
  lemma PairingAfterOverride(agent: AgentState, prompts: seq<Message>, steps: seq<Step>, i: nat, j: nat, k: nat,
                             end: nat)
    requires Obeys(agent, prompts, steps) && i < j < k < |steps|
    requires steps[i].Emit? && steps[i].event.TurnEnd? && steps[j].Override? && steps[k].CallLlm?
    requires NoOverride(steps[j + 1..k]) && end <= |steps[j].context|
    ensures var (m, results) := (steps[i].event.message, steps[i].event.toolResults);
            Paired(steps[k].context, end, m, results) <==> Paired(steps[j].context, end, m, results)
  {
    hide Obeys, Paired;
    ReplicaAgreement(agent, prompts, steps, k);
    SinceOverride(agent.messages, steps, j, k);
    PairedInFront(steps[j].context, steps[k].context, end, steps[i].event.message, steps[i].event.toolResults);
  }

  // ----- Asking for another turn

  ghost predicate NoCall(steps: seq<Step>) {
    forall i | 0 <= i < |steps| :: !steps[i].CallLlm?
  }

  /** Since the latest LLM call some tool call has ended without asking to terminate. */
  ghost predicate AskedOn(steps: seq<Step>) {
    exists i | 0 <= i < |steps| :: AsksOn(steps[i]) && NoCall(steps[i..])
  }

  lemma AskedOnNext(steps: seq<Step>, step: Step)
    ensures AskedOn(steps + [step]) <==> !step.CallLlm? && (AskedOn(steps) || AsksOn(step))
  {
    var all := steps + [step];
    if AskedOn(all) {
      var i :| 0 <= i < |all| && AsksOn(all[i]) && NoCall(all[i..]);
      assert all[i..][|all| - 1 - i] == step;
      if i < |steps| {
        assert all[i..] == steps[i..] + [step];
        assert forall j | 0 <= j < |steps[i..]| :: steps[i..][j] == all[i..][j];
      }
    }
    if !step.CallLlm? && AskedOn(steps) {
      var i :| 0 <= i < |steps| && AsksOn(steps[i]) && NoCall(steps[i..]);
      assert all[i] == steps[i] && all[i..] == steps[i..] + [step];
    }
    if AsksOn(step) {
      assert all[|steps|] == step && all[|steps|..] == [step];
    }
  }

  lemma {:induction false} DemandedAt(w: Watcher, steps: seq<Step>)
    requires !w.demanded
    ensures Watch(w, steps).demanded <==> AskedOn(steps)
  {
    hide AskedOn;
    if steps == [] {
      NothingAsked();
    } else {
      var n := |steps| - 1;
      DemandedAt(w, steps[..n]);
      NextAt(w, steps, n);
      assert steps == steps[..n] + [steps[n]] && steps[..n + 1] == steps;
      AskedOnNext(steps[..n], steps[n]);
    }
  }

  lemma NothingAsked()
    ensures !AskedOn([])
  {
  }

  /** After a turn the tools ask for another one exactly if some call of that turn ended
      without asking to terminate. */
  lemma DemandExact(agent: AgentState, prompts: seq<Message>, steps: seq<Step>, k: nat)
    requires Obeys(agent, prompts, steps) && k < |steps| && steps[k].TurnDone?
    ensures steps[k].more <==> AskedOn(steps[..k])
  {
    var w := Known(agent, prompts, steps, k);
    DemandedAt(NewWatcher(agent, prompts), steps[..k]);
  }

  /** No two tool calls of one assistant message share an id. */
  ghost predicate DistinctIds(steps: seq<Step>) {
    forall i | 0 <= i < |steps| ::
      steps[i].Emit? && steps[i].event.MessageEnd? && steps[i].event.message.Assistant? ==>
        Distinct(ToolCalls(steps[i].event.message.body.content))
  }

  ghost predicate Distinct(calls: seq<ToolCall>) {
    forall i, j | 0 <= i < j < |calls| :: calls[i].id != calls[j].id
  }

  lemma NoClashStep(w: Watcher, step: Step)
    requires Sound(w) && Acceptable(w, step) && !w.tools.clash && Distinct(w.tools.calls)
    requires step.Emit? && step.event.MessageEnd? && step.event.message.Assistant? ==>
               Distinct(ToolCalls(step.event.message.body.content))
    ensures !Observe(w, step).tools.clash && Distinct(Observe(w, step).tools.calls)
  {
    if step.Emit? && step.event.ToolStart? {
      forall i | i in w.tools.open ensures w.tools.open[i] != step.event.call.id {
      }
    }
  }

  lemma {:induction false} NoClash(w: Watcher, steps: seq<Step>)
    requires Sound(w) && Safe(w, steps) && DistinctIds(steps)
    requires !w.tools.clash && Distinct(w.tools.calls)
    ensures !Watch(w, steps).tools.clash
    decreases |steps|
  {
    if steps != [] {
      SoundStep(w, steps[0]);
      NoClashStep(w, steps[0]);
      NoClash(Observe(w, steps[0]), steps[1..]);
    }
  }

  /** The agent's pending set: never more than the open calls, exactly their ids when the
      ids of a message are distinct, and empty at every `turn_end` even when they repeat. */
  lemma PendingExact(agent: AgentState, prompts: seq<Message>, steps: seq<Step>, k: nat)
    requires Obeys(agent, prompts, steps) && k <= |steps|
    ensures var (pending, open) := (Replay(agent, steps[..k]).pending, Summarize(steps[..k]).open);
            && pending <= open.Values
            && (DistinctIds(steps[..k]) ==> pending == open.Values)
            && (k < |steps| && steps[k].Emit? && steps[k].event.TurnEnd? ==> pending == {} && open == map[])
  {
    var w := Known(agent, prompts, steps, k);
    if DistinctIds(steps[..k]) {
      SafeTail(agent, prompts, steps, 0, k);
      assert steps[0..k] == steps[..k] && steps[..0] == [];
      NoClash(NewWatcher(agent, prompts), steps[..k]);
    }
  }

  // ----- Queues and termination

  lemma CountPolled(s: Summary, step: Step)
    ensures Count(s, step).polled == s.polled + if step.Poll? then step.drained else []
  {
  }

  lemma {:induction false} PolledFromQueues(steps: seq<Step>)
    ensures |Summarize(steps).polled| == |Taken(steps, Steering)| + |Taken(steps, FollowUp)|
  {
    if steps != [] {
      hide Count;
      PolledFromQueues(steps[..|steps| - 1]);
      CountPolled(Summarize(steps[..|steps| - 1]), steps[|steps| - 1]);
    }
  }

  /** Turns are bounded at every point of a run: one, plus the turns whose tools asked to go
      on, plus the messages taken from either queue. */
  lemma TurnBound(agent: AgentState, prompts: seq<Message>, steps: seq<Step>, k: nat)
    requires Obeys(agent, prompts, steps) && k <= |steps|
    ensures var s := Summarize(steps[..k]);
            s.turns <= 1 + s.demands + |Taken(steps[..k], Steering)| + |Taken(steps[..k], FollowUp)|
  {
    var w := Known(agent, prompts, steps, k);
    PolledFromQueues(steps[..k]);
  }

  /** What is injected is always the front of the prompts and everything polled. At every
      poll, at every LLM call and at the end it is all of that. */
  lemma PolledIsInjected(agent: AgentState, prompts: seq<Message>, steps: seq<Step>, k: nat)
    requires Obeys(agent, prompts, steps) && k <= |steps|
    ensures var s := Summarize(steps[..k]);
            && s.injected <= prompts + s.polled
            && (k < |steps| && (steps[k].Poll? || steps[k].CallLlm? || (steps[k].Emit? && steps[k].event.AgentEnd?)) ==>
                  s.injected == prompts + s.polled)
  {
    var w := Known(agent, prompts, steps, k);
  }

  /** A turn after the first starts only because tools ask for it or because a polled message
      is still to be injected, and never after the application said stop. */
  lemma TurnsHaveReasons(agent: AgentState, prompts: seq<Message>, steps: seq<Step>, k: nat)
    requires Obeys(agent, prompts, steps) && k < |steps| && Is(steps[k], TurnStart)
    ensures var s := Summarize(steps[..k]);
            && !s.stopped
            && (s.turns == 0 || (!s.failed && (s.lastDemand == Some(true) || s.injected != prompts + s.polled)))
  {
    var w := Known(agent, prompts, steps, k);
  }

  /** A run ends in one of four ways only: its last message failed, the application said stop,
      or no tool asks for more and both polls after the last turn came back empty. */
  lemma RunEndsForAReason(agent: AgentState, prompts: seq<Message>, steps: seq<Step>, k: nat)
    requires Obeys(agent, prompts, steps) && k < |steps|
    requires steps[k].Emit? && steps[k].event.AgentEnd?
    ensures var s := Summarize(steps[..k]);
            || s.failed
            || s.stopped
            || (s.lastDemand != Some(true) && s.lastSteering == Some([]) && s.lastFollowUp == Some([]))
  {
    var w := Known(agent, prompts, steps, k);
  }

  /** Queues are polled only while the run goes on. Follow-ups are polled only when the
      steering poll after the latest turn came back empty and no tool batch demands another
      turn. */
  lemma FollowUpsWait(agent: AgentState, prompts: seq<Message>, steps: seq<Step>, k: nat)
    requires Obeys(agent, prompts, steps) && k < |steps| && steps[k].Poll?
    ensures var s := Summarize(steps[..k]);
            && !s.stopped
            && (steps[k].queue.FollowUp? ==> s.lastSteering == Some([]) && s.lastDemand != Some(true))
  {
    var w := Known(agent, prompts, steps, k);
  }

  // ----- Every run of the loop

  ghost predicate EndsRun(steps: seq<Step>) {
    steps != [] && steps[|steps| - 1].Emit? && steps[|steps| - 1].event.AgentEnd?
  }

  /** All of the above hold of every run: under every script, every schedule of concurrent
      tools and every behaviour of the application, from any idle agent, a run obeys the
      rules, and a run that finishes ends with `agent_end`. */
  lemma EveryRunObeys(agent: AgentState, queues: Queues, input: RunInput)
    requires Idle(agent) && WellStreamed(input.script)
    ensures var run := WholeRun(agent.messages, queues, input);
            && Obeys(agent, input.prompts, run.steps)
            && (run.finished ==> EndsRun(run.steps))
  {
    RunIsSafe(agent, queues, input);
    var steps := WholeRun(agent.messages, queues, input).steps;
    var w := NewWatcher(agent, input.prompts);
    if WholeRun(agent.messages, queues, input).finished {
      LastIsEnd(w, steps);
    }
  }

  lemma OnlyEndEnds(w: Watcher, step: Step)
    requires NextPhase(w.phase, step) == Some(Phase.Over)
    ensures step.Emit? && step.event.AgentEnd?
  {
  }

  lemma LastIsEnd(w: Watcher, steps: seq<Step>)
    requires Safe(w, steps) && Watch(w, steps).phase.Over? && !w.phase.Over?
    ensures EndsRun(steps)
  {
    var k := |steps| - 1;
    SafeEverywhere(w, steps, k);
    NextAt(w, steps, k);
    assert steps[..k + 1] == steps;
    OnlyEndEnds(Watch(w, steps[..k]), steps[k]);
  }
}
