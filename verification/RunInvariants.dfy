/** What the observer's step-by-step rules add up to over a whole run. */
module RunInvariants {
  import opened Messages
  import opened Reducer
  import opened Watching

  // ----- Invariants of every accepted run

  predicate Answers(m: Message, call: ToolCall) {
    m.ToolResult? && m.callId == call.id && m.toolName == call.name
  }

  /** The message at `p` is immediately followed by one result per tool call, in order. */
  ghost predicate AnsweredUpTo(transcript: seq<Message>, p: nat, n: nat) {
    && p + n < |transcript|
    && transcript[p].Assistant?
    && n <= |ToolCalls(transcript[p].body.content)|
    && forall j: nat | j < n :: Answers(transcript[p + 1 + j], ToolCalls(transcript[p].body.content)[j])
  }

  predicate InBatch(phase: Phase) {
    phase.Acting? || phase.ResultBracket?
  }

  /** The pending set holds the ids of open calls, and all of them unless ids clashed. */
  ghost predicate PendingSound(w: Watcher) {
    && w.agent.pending <= w.tools.open.Values
    && (!w.tools.clash ==>
          && w.agent.pending == w.tools.open.Values
          && forall i, j | i in w.tools.open && j in w.tools.open && i != j :: w.tools.open[i] != w.tools.open[j])
  }

  ghost predicate ToolsSound(w: Watcher) {
    && (InBatch(w.phase) || w.tools == NO_TOOLS)
    && (w.phase.ResultBracket? ==>
          && w.tools.open == map[]
          && w.tools.results in w.tools.ended
          && w.phase.message == w.tools.ended[w.tools.results])
    && w.tools.results <= w.tools.starts <= |w.tools.calls|
    && (forall i | i in w.tools.open :: i < w.tools.starts && w.tools.open[i] == w.tools.calls[i].id)
    && (forall i | i in w.tools.ended :: i < w.tools.starts && Answers(w.tools.ended[i], w.tools.calls[i]))
  }

  /** The last assistant message, while its results are still coming in. */
  ghost predicate Current(w: Watcher, p: nat) {
    && InBatch(w.phase)
    && AnsweredUpTo(w.agent.messages, p, w.tools.results)
    && |w.agent.messages| == p + 1 + w.tools.results
    && w.tools.calls == ToolCalls(w.agent.messages[p].body.content)
  }

  /** While a batch runs, the results so far answer the last assistant message; a failed
      message gets none, and nothing but the end of the run can follow it. */
  ghost predicate PairingSound(w: Watcher) {
    && (w.failed ==> (w.phase.Acting? || w.phase.Between? || w.phase.Over?) && w.tools.starts == 0)
    && (InBatch(w.phase) ==>
          && w.tools.results < |w.agent.messages|
          && Current(w, |w.agent.messages| - 1 - w.tools.results))
  }

  /** What is injected so far is the front of what was given, and a message being announced
      is the next of it. */
  ghost predicate InjectSound(w: Watcher) {
    var injected, given := w.queue.injected, Given(w);
    && injected <= given
    && (w.phase.AskBracket? ==> |injected| < |given| && given[|injected|] == w.phase.message)
  }

  lemma InjectStep(w: Watcher, step: Step)
    requires InjectSound(w) && Acceptable(w, step)
    ensures InjectSound(Observe(w, step))
  {
    hide ToolRule, ContextRule, WatchTools, ReduceStep;
    var w' := Observe(w, step);
    if step.Poll? {
      assert Given(w') == Given(w) + step.drained;
    } else {
      assert Given(w') == Given(w);
    }
  }

  ghost predicate Sound(w: Watcher) {
    && PendingSound(w)
    && ToolsSound(w)
    && PairingSound(w)
    && InjectSound(w)
    && w.queue.turns <= 1 + w.queue.demands + |w.queue.polled|
  }

  lemma PendingStep(w: Watcher, step: Step)
    requires PendingSound(w) && ToolsSound(w) && Acceptable(w, step)
    ensures PendingSound(Observe(w, step))
  {
    hide ContextRule, QueueRule, WatchQueue, Answers;
    var w' := Observe(w, step);
    var before, after := w.tools.open, w'.tools.open;
    if step.Emit? && step.event.ToolStart? {
      var slot, id := step.event.slot, step.event.call.id;
      assert slot !in before;
      assert after == before[slot := id];
      forall x | x in w'.agent.pending ensures x in after.Values {
        if x == id {
          assert after[slot] == id;
        } else {
          var i :| i in before && before[i] == x;
          assert after[i] == x;
        }
      }
      if !w'.tools.clash {
        forall x | x in after.Values ensures x in w'.agent.pending {
        }
        forall i | i in before ensures before[i] != id {
          assert before[i] in before.Values;
        }
      }
    } else if step.Emit? && step.event.ToolEnd? {
      EndPending(w, step);
    } else {
      assert w'.agent.pending == w.agent.pending;
      assert after == before;
    }
  }

  lemma EndPending(w: Watcher, step: Step)
    requires PendingSound(w) && ToolsSound(w) && Acceptable(w, step)
    requires step.Emit? && step.event.ToolEnd?
    ensures PendingSound(Observe(w, step))
  {
    var w' := Observe(w, step);
    var slot, id := step.event.slot, step.event.call.id;
    var before, after := w.tools.open, w'.tools.open;
    assert after == before - {slot};
    forall x | x in w'.agent.pending ensures x in after.Values {
      var i :| i in before && before[i] == x;
      assert i != slot;
      assert i in after && after[i] == x;
    }
    if !w'.tools.clash {
      forall x | x in after.Values ensures x in w'.agent.pending {
        var i :| i in after && after[i] == x;
        assert i in before && before[i] == x && i != slot;
        assert x in before.Values;
      }
    }
  }

  lemma ToolsStep(w: Watcher, step: Step)
    requires ToolsSound(w) && Acceptable(w, step)
    ensures ToolsSound(Observe(w, step))
  {
    hide ContextRule, QueueRule, WatchQueue, ReduceStep;
    if step.Emit? && (step.event.ToolStart? || step.event.ToolEnd?) {
      ToolEventStep(w, step);
    } else {
      assert Observe(w, step).tools.open == w.tools.open || Observe(w, step).tools.open == map[];
    }
  }

  lemma ToolEventStep(w: Watcher, step: Step)
    requires ToolsSound(w) && Acceptable(w, step)
    requires step.Emit? && (step.event.ToolStart? || step.event.ToolEnd?)
    ensures ToolsSound(Observe(w, step))
  {
  }

  lemma CurrentGrows(w: Watcher, step: Step, p: nat)
    requires ToolsSound(w) && Acceptable(w, step) && Current(w, p)
    requires step.Emit? && step.event.MessageEnd?
    ensures Current(Observe(w, step), p)
  {
    var w' := Observe(w, step);
    var m := step.event.message;
    var calls := w.tools.calls;
    assert w.phase == ResultBracket(m) && Answers(m, calls[w.tools.results]);
    assert w'.agent.messages == w.agent.messages + [m];
    assert w'.tools.results == w.tools.results + 1;
    forall j: nat | j < w'.tools.results ensures Answers(w'.agent.messages[p + 1 + j], calls[j]) {
      if j < w.tools.results {
        assert w'.agent.messages[p + 1 + j] == w.agent.messages[p + 1 + j];
      }
    }
  }

  lemma PairingStep(w: Watcher, step: Step)
    requires ToolsSound(w) && PairingSound(w) && Acceptable(w, step)
    ensures PairingSound(Observe(w, step))
  {
    hide WatchQueue, ContextRule;
    var w' := Observe(w, step);
    if InBatch(w.phase) && InBatch(w'.phase) {
      var p := |w.agent.messages| - 1 - w.tools.results;
      if step.Emit? && step.event.MessageEnd? {
        CurrentGrows(w, step, p);
      }
      assert Current(w', p);
    } else if InBatch(w'.phase) {
      assert Current(w', |w.agent.messages|);
    }
  }

  lemma SoundStep(w: Watcher, step: Step)
    requires Sound(w) && Acceptable(w, step)
    ensures Sound(Observe(w, step))
  {
    PendingStep(w, step);
    ToolsStep(w, step);
    PairingStep(w, step);
    InjectStep(w, step);
  }

  lemma {:induction false} SoundRun(w: Watcher, steps: seq<Step>)
    requires Sound(w) && Safe(w, steps)
    ensures Sound(Watch(w, steps))
    decreases |steps|
  {
    if steps != [] {
      SoundStep(w, steps[0]);
      SoundRun(Observe(w, steps[0]), steps[1..]);
    }
  }

  // ----- The rules, at every step

  /** A safe run keeps the rules at each of its steps, judged by what came before it. */
  lemma {:induction false} SafeEverywhere(w: Watcher, steps: seq<Step>, k: nat)
    requires Safe(w, steps) && k < |steps|
    ensures Safe(w, steps[..k])
    ensures Acceptable(Watch(w, steps[..k]), steps[k])
    ensures Watch(w, steps[..k]).agent == Replay(w.agent, steps[..k])
  {
    assert steps == steps[..k] + steps[k..];
    WatchAppend(w, steps[..k], steps[k..]);
    WatcherReplays(w, steps[..k]);
  }
}
