/** Every way the calls on one agent can interleave: prompts, continuations, queueing,
    resets, aborts, the steps of runs, runs that throw, listeners that throw on the failure
    report, and tool calls that outlive the run that started them. */
module Lifecycle {
  import opened Messages
  import opened Reducer
  import opened AgentCore
  import opened AgentRuns

  /** How far an executor has come; `told` counts the failure events already delivered. */
  datatype Stage = Running | Failing(failure: Message, told: nat) | Settled

  datatype Active = Active(run: nat, aborted: bool)

  /** An agent and every run it ever started. */
  datatype World = World(agent: AgentState, queues: Queues, active: Option<Active>, runs: seq<Stage>)

  /** `Tells` delivers the next event of a failure report; `Outlives` is an event of a
      concurrent tool call whose run has already failed. */
  datatype Move =
    | Prompts
    | Continues
    | Acts(action: UserAction)
    | Resets
    | Emits(run: nat, event: Event)
    | Polls(run: nat, queue: QueueName)
    | Returns(run: nat)
    | Throws(run: nat, reason: string)
    | Tells(run: nat, accepted: bool)
    | Outlives(run: nat, event: Event)

  predicate Possible(w: World, move: Move) {
    match move
    case Emits(run, _) => run < |w.runs| && w.runs[run].Running?
    case Polls(run, _) => run < |w.runs| && w.runs[run].Running?
    case Returns(run) => run < |w.runs| && w.runs[run].Running?
    case Throws(run, _) => run < |w.runs| && w.runs[run].Running?
    case Tells(run, _) => run < |w.runs| && w.runs[run].Failing? && w.runs[run].told < 4
    case Outlives(run, event) => run < |w.runs| && !w.runs[run].Running? && (event.ToolUpdate? || event.ToolEnd?)
    case _ => true
  }

  function Begin(w: World): World {
    w.(agent := Begun(w.agent), active := Some(Active(|w.runs|, false)), runs := w.runs + [Running])
  }

  /** `finishRun()`: it clears whatever run is active, without asking whose it is. */
  function Finish(w: World, run: nat): World
    requires run < |w.runs|
  {
    w.(agent := Finished(w.agent), active := None, runs := w.runs[run := Settled])
  }

  function Aborted(w: World): bool {
    w.active.Some? && w.active.value.aborted
  }

  function Tell(w: World, run: nat, accepted: bool): World
    requires run < |w.runs| && w.runs[run].Failing? && w.runs[run].told < 4
  {
    var Failing(failure, told) := w.runs[run];
    var heard := w.(agent := Reduce(w.agent, FailureEvents(failure)[told]));
    if accepted && told < 3 then heard.(runs := w.runs[run := Failing(failure, told + 1)])
    else Finish(heard, run)
  }

  function Apply(w: World, move: Move): World
    requires Possible(w, move)
  {
    match move
    case Prompts => if w.active.Some? then w else Begin(w)
    case Continues =>
      var plan := Continuation(w.agent.messages, w.queues);
      if w.active.Some? || plan.None? then w else Begin(w.(queues := plan.value.2))
    case Acts(action) =>
      var acted := w.(queues := Act(w.queues, action));
      if action.Abort? && w.active.Some? then acted.(active := Some(w.active.value.(aborted := true))) else acted
    case Resets =>
      w.(agent := Blank(), queues := Act(Act(w.queues, Clear(FollowUp)), Clear(Steering)))
    case Emits(_, event) => w.(agent := Reduce(w.agent, event))
    case Polls(_, name) => w.(queues := w.queues.Put(name, Undrained(w.queues.Get(name))))
    case Returns(run) => Finish(w, run)
    case Throws(run, reason) => w.(runs := w.runs[run := Failing(FailureMessage(Aborted(w), reason), 0)])
    case Tells(run, accepted) => Tell(w, run, accepted)
    case Outlives(_, event) => w.(agent := Reduce(w.agent, event))
  }

  /** `w'` is what the moves make of `w`. */
  predicate History(w: World, moves: seq<Move>, w': World)
    decreases |moves|
  {
    if moves == [] then w == w'
    else Possible(w, moves[0]) && History(Apply(w, moves[0]), moves[1..], w')
  }

  predicate Fresh(w: World) {
    w.active.None? && w.runs == [] && !w.agent.isStreaming && w.agent.streaming.None? && w.agent.pending == {}
  }

  // ----- Safety

  /** A run is live exactly while it is the active one, so no two ever are; and an agent
      without an active run shows no trace of one. */
  ghost predicate Sound(w: World) {
    && (forall i: nat | i < |w.runs| :: !w.runs[i].Settled? <==> w.active.Some? && w.active.value.run == i)
    && (w.active.Some? ==> w.active.value.run < |w.runs|)
    && (w.active.None? ==> !w.agent.isStreaming && w.agent.streaming.None? && w.agent.pending == {})
    && (forall i: nat | i < |w.runs| && w.runs[i].Failing? :: w.runs[i].told < 4 && w.runs[i].failure.Assistant?)
  }

  lemma MoveKeepsSound(w: World, move: Move)
    requires Sound(w) && Possible(w, move)
    ensures Sound(Apply(w, move))
  {
    match move
    case Outlives(run, event) =>
      assert w.active.None? ==> Reduce(w.agent, event).pending == {};
    case Tells(run, accepted) =>
      assert w.active.Some? && w.active.value.run == run;
    case _ =>
  }

  // ----- The agent itself

  /** The agent is in the state the history says. */
  ghost predicate Reflects(agent: Agent, w: World)
    reads agent, agent.steeringQueue, agent.followUpQueue
  {
    && agent.State() == w.agent
    && agent.QueueValues() == w.queues
    && agent.activeRun == if w.active.None? then None else Some(w.active.value.aborted)
  }

  /** Every move is what the agent's own methods do. `runs` is how far the executors have
      come. */
  method Drive(agent: Agent, runs: seq<Stage>, move: Move, ghost w: World) returns (after: seq<Stage>)
    requires agent.Valid() && Reflects(agent, w) && runs == w.runs && Sound(w) && Possible(w, move)
    modifies agent, agent.steeringQueue, agent.followUpQueue
    ensures agent.Valid() && Reflects(agent, Apply(w, move)) && after == Apply(w, move).runs
  {
    after := runs;
    match move {
      case Prompts =>
        if agent.activeRun.None? {
          agent.BeginRun();
          after := runs + [Running];
        }
      case Continues =>
        var taken := TakeContinuation(agent);
        if taken.Some? {
          agent.BeginRun();
          after := runs + [Running];
        }
      case Acts(action) =>
        agent.Perform(action);
      case Resets =>
        agent.Reset();
      case Emits(_, event) =>
        var ok := agent.ProcessEvents(event);
      case Polls(_, name) =>
        var drained := agent.DrainQueue(name);
      case Returns(run) =>
        agent.FinishRun();
        after := runs[run := Settled];
      case Throws(run, reason) =>
        after := runs[run := Failing(FailureMessage(agent.activeRun == Some(true), reason), 0)];
      case Tells(run, accepted) =>
        var Failing(failure, told) := runs[run];
        var ok := agent.ProcessEvents(FailureEvents(failure)[told]);
        if accepted && told < 3 {
          after := runs[run := Failing(failure, told + 1)];
        } else {
          agent.FinishRun();
          after := runs[run := Settled];
        }
      case Outlives(_, event) =>
        var ok := agent.ProcessEvents(event);
    }
  }

  /** In every history of a fresh agent at most one executor is live, and it is the active
      one; whenever none is active the agent is idle, whatever threw before. */
  lemma {:induction false} HistoriesAreSound(w: World, moves: seq<Move>, w': World)
    requires Sound(w) && History(w, moves, w')
    ensures Sound(w')
    decreases |moves|
  {
    if moves != [] {
      MoveKeepsSound(w, moves[0]);
      HistoriesAreSound(Apply(w, moves[0]), moves[1..], w');
    }
  }

  lemma AtMostOneLive(w: World, moves: seq<Move>, w': World, i: nat, j: nat)
    requires Fresh(w) && History(w, moves, w') && i < |w'.runs| && j < |w'.runs|
    ensures !w'.runs[i].Settled? && !w'.runs[j].Settled? ==> i == j
    ensures (forall k: nat | k < |w'.runs| :: w'.runs[k].Settled?) <==> w'.active.None?
    ensures w'.active.None? ==> !w'.agent.isStreaming && w'.agent.streaming.None? && w'.agent.pending == {}
  {
    HistoriesAreSound(w, moves, w');
    assert w'.active.Some? ==> !w'.runs[w'.active.value.run].Settled?;
  }

  // ----- Refusals

  /** `continue()` is refused exactly when a run is active or there is nothing to continue
      from, and a refused call changes nothing, the queues included. An accepted one starts
      a run and takes its prompts from the front of one queue. */
  lemma ContinueRefused(w: World)
    ensures var w' := Apply(w, Continues);
            var last := |w.agent.messages| - 1;
            var refused := w.active.Some? || w.agent.messages == [] ||
                           (w.agent.messages[last].Assistant? && w.queues.steering.items == []
                            && w.queues.followUp.items == []);
            && (refused <==> w' == w)
            && (!refused ==> |w'.runs| == |w.runs| + 1 && w'.agent.isStreaming && w'.agent.messages == w.agent.messages)
            && (!refused && w.queues.steering.items == [] ==> w'.queues.steering.items == [])
            && (!refused && w.queues.steering.items != [] ==> w'.queues.followUp == w.queues.followUp)
  {
    assert Apply(w, Continues) == w || |Apply(w, Continues).runs| == |w.runs| + 1;
  }

  // ----- The transcript

  predicate NeverReset(moves: seq<Move>) {
    forall i | 0 <= i < |moves| :: !moves[i].Resets?
  }

  lemma MoveAppends(w: World, move: Move)
    requires Possible(w, move) && !move.Resets?
    ensures w.agent.messages <= Apply(w, move).agent.messages
    ensures |w.runs| <= |Apply(w, move).runs|
  {
  }

  /** Without a reset the transcript only grows, through every run and every failure. */
  lemma {:induction false} TranscriptAppends(w: World, moves: seq<Move>, w': World)
    requires History(w, moves, w') && NeverReset(moves)
    ensures w.agent.messages <= w'.agent.messages
    decreases |moves|
  {
    if moves != [] {
      MoveAppends(w, moves[0]);
      TranscriptAppends(Apply(w, moves[0]), moves[1..], w');
    }
  }

  // ----- Failure reports

  lemma SettledStays(w: World, move: Move, run: nat)
    requires Possible(w, move) && run < |w.runs| && w.runs[run].Settled?
    ensures run < |Apply(w, move).runs| && Apply(w, move).runs[run].Settled?
  {
  }

  lemma {:induction false} SettledForGood(w: World, moves: seq<Move>, w': World, run: nat)
    requires History(w, moves, w') && run < |w.runs| && w.runs[run].Settled?
    ensures run < |w'.runs| && w'.runs[run].Settled?
    decreases |moves|
  {
    if moves != [] {
      SettledStays(w, moves[0], run);
      SettledForGood(Apply(w, moves[0]), moves[1..], w', run);
    }
  }

  /** What the events told so far have committed. */
  function CommittedBy(stage: Stage): seq<Message>
    requires stage.Failing?
  {
    if stage.told < 2 then [] else [stage.failure]
  }

  lemma FailingStep(w: World, move: Move, run: nat, base: seq<Message>)
    requires Sound(w) && Possible(w, move) && !move.Resets?
    requires run < |w.runs| && w.runs[run].Failing? && w.agent.messages == base + CommittedBy(w.runs[run])
    ensures var w' := Apply(w, move);
            run < |w'.runs| &&
            (w'.runs[run].Settled? ||
             (w'.runs[run].Failing? && w'.runs[run].failure == w.runs[run].failure &&
              w'.agent.messages == base + CommittedBy(w'.runs[run])))
  {
    assert w.active.value.run == run;
  }

  /** While a failure is being reported nothing but its own message enters the transcript. */
  lemma {:induction false} FailingRun(w: World, moves: seq<Move>, w': World, run: nat, base: seq<Message>)
    requires Sound(w) && History(w, moves, w') && NeverReset(moves)
    requires run < |w.runs| && w.runs[run].Failing? && w.agent.messages == base + CommittedBy(w.runs[run])
    requires run < |w'.runs| && w'.runs[run].Failing?
    ensures w'.runs[run].failure == w.runs[run].failure && w'.agent.messages == base + CommittedBy(w'.runs[run])
    decreases |moves|
  {
    if moves != [] {
      var next := Apply(w, moves[0]);
      MoveKeepsSound(w, moves[0]);
      FailingStep(w, moves[0], run, base);
      if next.runs[run].Settled? {
        SettledForGood(next, moves[1..], w', run);
      }
      FailingRun(next, moves[1..], w', run, base);
    }
  }

  /** From the moment a run throws until its report settles it, whatever else is called on
      the agent and whatever its leftover tools emit, the transcript gains exactly one
      message, the failure, unless a listener throws on the very first event. */
  lemma FailureCommitsOnce(thrown: World, moves: seq<Move>, last: World, run: nat, accepted: bool)
    requires Sound(thrown) && History(thrown, moves, last) && NeverReset(moves)
    requires run < |thrown.runs| && thrown.runs[run].Failing? && thrown.runs[run].told == 0
    requires run < |last.runs| && last.runs[run].Failing? && Possible(last, Tells(run, accepted))
    requires Apply(last, Tells(run, accepted)).runs[run].Settled?
    ensures Apply(last, Tells(run, accepted)).agent.messages ==
      thrown.agent.messages + if last.runs[run].told == 0 then [] else [thrown.runs[run].failure]
    ensures accepted ==> last.runs[run].told == 3
    ensures Apply(last, Tells(run, accepted)).active.None?
  {
    FailingRun(thrown, moves, last, run, thrown.agent.messages);
  }

  // ----- Pending tool calls across runs

  /** A tool call of the active run: its slot and its id. */
  type Call = (nat, string)

  function Ids(open: set<Call>): set<string> {
    set c | c in open :: c.1
  }

  predicate InActive(w: World, run: nat) {
    w.active.Some? && w.active.value.run == run
  }

  /** The calls the active run has started and not ended. A failed run goes on ending its
      own calls while its failure is being reported. */
  function NextOpen(w: World, open: set<Call>, move: Move): set<Call>
    requires Possible(w, move)
  {
    match move
    case Emits(_, ToolStart(slot, call)) => open + {(slot, call.id)}
    case Emits(_, ToolEnd(slot, call, _, _)) => open - {(slot, call.id)}
    case Outlives(run, ToolEnd(slot, call, _, _)) => if InActive(w, run) then open - {(slot, call.id)} else open
    case Returns(_) => {}
    case Tells(run, accepted) => if Apply(w, move).active.None? then {} else open
    case _ => open
  }

  /** A call ends under an id that another call has open, be it a call of the same run or one
      that outlived an earlier run; or the state is reset under open calls. */
  predicate Disturbs(w: World, open: set<Call>, move: Move) {
    match move
    case Emits(_, ToolEnd(slot, call, _, _)) => call.id in Ids(open - {(slot, call.id)})
    case Outlives(run, ToolEnd(slot, call, _, _)) =>
      call.id in Ids(if InActive(w, run) then open - {(slot, call.id)} else open)
    case Resets => open != {}
    case _ => false
  }

  predicate Undisturbed(w: World, open: set<Call>, moves: seq<Move>)
    decreases |moves|
  {
    moves == [] ||
    (Possible(w, moves[0]) && !Disturbs(w, open, moves[0]) &&
     Undisturbed(Apply(w, moves[0]), NextOpen(w, open, moves[0]), moves[1..]))
  }

  /** The pending set holds exactly the ids of the open calls, now and after every move. */
  predicate PendingAlways(w: World, open: set<Call>, moves: seq<Move>)
    decreases |moves|
  {
    w.agent.pending == Ids(open) &&
    (moves == [] ||
     (Possible(w, moves[0]) && PendingAlways(Apply(w, moves[0]), NextOpen(w, open, moves[0]), moves[1..])))
  }

  lemma IdsChange(open: set<Call>, slot: nat, id: string)
    ensures Ids(open + {(slot, id)}) == Ids(open) + {id}
    ensures Ids(open - {(slot, id)}) == Ids(open) - {id} <==> id !in Ids(open - {(slot, id)})
    ensures Ids({}) == {}
  {
    forall x ensures x in Ids(open + {(slot, id)}) <==> x in Ids(open) + {id} {
      if x == id {
        assert (slot, id) in open + {(slot, id)};
      } else if x in Ids(open) {
        var c :| c in open && c.1 == x;
        assert c in open + {(slot, id)};
      }
    }
    forall x | x != id ensures x in Ids(open - {(slot, id)}) <==> x in Ids(open) {
      if x in Ids(open) {
        var c :| c in open && c.1 == x;
        assert c in open - {(slot, id)};
      }
    }
  }

  lemma NoIds(open: set<Call>)
    ensures Ids(open) == {} <==> open == {}
  {
    if c :| c in open {
      assert c.1 in Ids(open);
    }
  }

  /** One move keeps the pending set exact exactly if it is no disturbance. */
  lemma PendingStep(w: World, open: set<Call>, move: Move)
    requires Sound(w) && Possible(w, move) && w.agent.pending == Ids(open)
    ensures Apply(w, move).agent.pending == Ids(NextOpen(w, open, move)) <==> !Disturbs(w, open, move)
  {
    hide Ids;
    NoIds(open);
    match move
    case Tells(run, _) => assert w.active.value.run == run; NoIds({});
    case Emits(run, ToolStart(slot, call)) => assert w.active.value.run == run; IdsChange(open, slot, call.id);
    case Emits(run, ToolEnd(slot, call, _, _)) => assert w.active.value.run == run; IdsChange(open, slot, call.id);
    case Emits(run, _) => assert w.active.value.run == run;
    case Outlives(run, ToolEnd(slot, call, _, _)) => IdsChange(open, slot, call.id);
    case Returns(run) => assert w.active.value.run == run; NoIds({});
    case _ =>
  }

  /** Over any history of an agent: at every point the pending set holds exactly the ids of the
      calls open in the active run, if and only if no call ever ends under an id that another
      call has open at that moment, and no reset happens under open calls. */
  lemma {:induction false} PendingAcrossRuns(w: World, open: set<Call>, moves: seq<Move>, w': World)
    requires Sound(w) && History(w, moves, w') && w.agent.pending == Ids(open)
    ensures PendingAlways(w, open, moves) <==> Undisturbed(w, open, moves)
    decreases |moves|
  {
    if moves != [] {
      PendingStep(w, open, moves[0]);
      MoveKeepsSound(w, moves[0]);
      var next := Apply(w, moves[0]);
      assert History(next, moves[1..], w');
      if !Disturbs(w, open, moves[0]) {
        PendingAcrossRuns(next, NextOpen(w, open, moves[0]), moves[1..], w');
      }
    }
  }

  lemma Earlier(w: World, open: set<Call>, move: Move, moves: seq<Move>, w': World)
    requires Possible(w, move) && History(Apply(w, move), moves, w')
    requires Disturbs(w, open, move) || !Undisturbed(Apply(w, move), NextOpen(w, open, move), moves)
    ensures History(w, [move] + moves, w') && !Undisturbed(w, open, [move] + moves)
  {
    assert ([move] + moves)[1..] == moves;
  }

  /** The moves of a second run that opens a call, and of the first run's call ending then. */
  function LateEnd(call: ToolCall, output: ToolOutput): seq<Move> {
    [Prompts] + ([Emits(1, ToolStart(0, call))] + ([Outlives(0, ToolEnd(0, call, output, false))] + []))
  }

  lemma LateEndHits(w: World, call: ToolCall, output: ToolOutput) returns (w': World)
    requires w.active.None? && w.runs == [Settled] && w.agent.pending == {}
    ensures History(w, LateEnd(call, output), w') && !Undisturbed(w, {}, LateEnd(call, output))
    ensures w'.active == Some(Active(1, false)) && w'.agent.pending == {}
  {
    var start, end := Emits(1, ToolStart(0, call)), Outlives(0, ToolEnd(0, call, output, false));
    var begun := Apply(w, Prompts);
    var running := Apply(begun, start);
    w' := Apply(running, end);
    assert running.agent.pending == {call.id};
    var open := {(0, call.id)};
    assert (0, call.id) in open && open - {} == open;
    Earlier(running, open, end, [], w');
    Earlier(begun, {}, start, [end] + [], w');
    Earlier(w, {}, Prompts, [start] + ([end] + []), w');
  }

  /** A run that fails with a call open, its report refused at once. */
  function FailsOpen(call: ToolCall, later: seq<Move>): seq<Move> {
    [Prompts] + ([Emits(0, ToolStart(0, call))] + ([Throws(0, "refused")] + ([Tells(0, false)] + later)))
  }

  /** For instance: a run fails while a call is open, the next run starts a call under the
      same id, and then the first call ends: nothing is pending, though a call is open. */
  lemma LateEndDisturbs(w: World, call: ToolCall, output: ToolOutput)
    requires Fresh(w)
    ensures var moves := FailsOpen(call, LateEnd(call, output));
            !PendingAlways(w, {}, moves) &&
            exists w' :: History(w, moves, w') && w'.active == Some(Active(1, false)) && w'.agent.pending == {}
  {
    var start, throw, tell := Emits(0, ToolStart(0, call)), Throws(0, "refused"), Tells(0, false);
    var w1 := Apply(w, Prompts);
    var w2 := Apply(w1, start);
    var w3 := Apply(w2, throw);
    var w4 := Apply(w3, tell);
    var late := LateEnd(call, output);
    assert w3.runs[0].Failing? && w4.runs == [Settled];
    var w' := LateEndHits(w4, call, output);
    hide LateEnd;
    var open := {(0, call.id)};
    Earlier(w3, open, tell, late, w');
    Earlier(w2, open, throw, [tell] + late, w');
    Earlier(w1, {}, start, [throw] + ([tell] + late), w');
    Earlier(w, {}, Prompts, [start] + ([throw] + ([tell] + late)), w');
    NoIds({});
    PendingAcrossRuns(w, {}, FailsOpen(call, late), w');
  }
}
