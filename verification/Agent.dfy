/** The stateful agent: its transcript, its queues, and the reducer for loop events. */
module AgentCore {
  import opened Messages
  import opened Reducer

  class PendingMessageQueue {
    var mode: QueueMode
    var messages: seq<Message>

    function Value(): QueueState
      reads this
    {
      QueueState(mode, messages)
    }

    constructor (mode: QueueMode)
      ensures Value() == QueueState(mode, [])
    {
      this.mode := mode;
      this.messages := [];
    }

    method Enqueue(message: Message)
      modifies this
      ensures mode == old(mode) && messages == old(messages) + [message]
    {
      messages := messages + [message];
    }

    method HasItems() returns (has: bool)
      ensures has <==> Value().items != []
    {
      has := |messages| > 0;
    }

    /** Takes everything, or only the oldest message, according to the mode. */
    method Drain() returns (drained: seq<Message>)
      modifies this
      ensures drained == Drained(old(Value())) && Value() == Undrained(old(Value()))
      ensures drained + messages == old(messages) && mode == old(mode)
      ensures old(mode) == All ==> drained == old(messages) && messages == []
      ensures old(mode) == OneAtATime && old(messages) != [] ==>
        drained == [old(messages)[0]] && messages == old(messages)[1..]
      ensures drained == [] <==> old(messages) == []
    {
      if mode == All {
        drained := messages;
        messages := [];
        return;
      }
      if messages == [] {
        return [];
      }
      drained := [messages[0]];
      messages := messages[1..];
    }

    method Clear()
      modifies this
      ensures mode == old(mode) && messages == []
    {
      messages := [];
    }
  }

  class Agent {
    var messages: seq<Message>
    var isStreaming: bool
    var streamingMessage: Option<Message>
    var pendingToolCalls: set<string>
    var errorMessage: Option<string>
    /** The active run, if any: whether it has been told to abort. */
    var activeRun: Option<bool>
    const steeringQueue: PendingMessageQueue
    const followUpQueue: PendingMessageQueue

    function State(): AgentState
      reads this
    {
      AgentState(messages, isStreaming, streamingMessage, pendingToolCalls, errorMessage)
    }

    function QueueValues(): Queues
      reads steeringQueue, followUpQueue
    {
      Queues(steeringQueue.Value(), followUpQueue.Value())
    }

    /** No run leaves anything behind. */
    ghost predicate Valid()
      reads this
    {
      && steeringQueue != followUpQueue
      && (activeRun.None? ==> !isStreaming && streamingMessage.None? && pendingToolCalls == {})
    }

    constructor (messages: seq<Message>, steeringMode: QueueMode, followUpMode: QueueMode)
      ensures Valid() && fresh(steeringQueue) && fresh(followUpQueue)
      ensures activeRun.None? && State() == AgentState(messages, false, None, {}, None)
      ensures QueueValues() == Queues(QueueState(steeringMode, []), QueueState(followUpMode, []))
    {
      this.messages := messages;
      this.isStreaming := false;
      this.streamingMessage := None;
      this.pendingToolCalls := {};
      this.errorMessage := None;
      this.activeRun := None;
      this.steeringQueue := new PendingMessageQueue(steeringMode);
      this.followUpQueue := new PendingMessageQueue(followUpMode);
    }

    // ----- Queueing

    method Steer(message: Message)
      requires Valid()
      modifies steeringQueue
      ensures QueueValues() == Act(old(QueueValues()), Enqueue(Steering, message))
      ensures steeringQueue.mode == old(steeringQueue.mode)
      ensures steeringQueue.messages == old(steeringQueue.messages) + [message]
    {
      steeringQueue.Enqueue(message);
    }

    method QueueFollowUp(message: Message)
      requires Valid()
      modifies followUpQueue
      ensures QueueValues() == Act(old(QueueValues()), Enqueue(FollowUp, message))
      ensures followUpQueue.mode == old(followUpQueue.mode)
      ensures followUpQueue.messages == old(followUpQueue.messages) + [message]
    {
      followUpQueue.Enqueue(message);
    }

    method SetQueueMode(name: QueueName, mode: QueueMode)
      requires Valid()
      modifies steeringQueue, followUpQueue
      ensures QueueValues() == Act(old(QueueValues()), SetMode(name, mode))
      ensures steeringQueue.mode == (if name == Steering then mode else old(steeringQueue.mode))
      ensures followUpQueue.mode == (if name == FollowUp then mode else old(followUpQueue.mode))
      ensures steeringQueue.messages == old(steeringQueue.messages)
      ensures followUpQueue.messages == old(followUpQueue.messages)
    {
      if name == Steering {
        steeringQueue.mode := mode;
      } else {
        followUpQueue.mode := mode;
      }
    }

    method ClearSteeringQueue()
      requires Valid()
      modifies steeringQueue
      ensures QueueValues() == Act(old(QueueValues()), Clear(Steering))
      ensures steeringQueue.mode == old(steeringQueue.mode) && steeringQueue.messages == []
    {
      steeringQueue.Clear();
    }

    method ClearFollowUpQueue()
      requires Valid()
      modifies followUpQueue
      ensures QueueValues() == Act(old(QueueValues()), Clear(FollowUp))
      ensures followUpQueue.mode == old(followUpQueue.mode) && followUpQueue.messages == []
    {
      followUpQueue.Clear();
    }

    method HasQueuedMessages() returns (has: bool)
      ensures has <==> QueueValues().steering.items != [] || QueueValues().followUp.items != []
    {
      var steering := steeringQueue.HasItems();
      var followUp := followUpQueue.HasItems();
      has := steering || followUp;
    }

    method DrainQueue(name: QueueName) returns (drained: seq<Message>)
      requires Valid()
      modifies steeringQueue, followUpQueue
      ensures drained == Drained(old(QueueValues()).Get(name))
      ensures QueueValues() == old(QueueValues()).Put(name, Undrained(old(QueueValues()).Get(name)))
    {
      if name == Steering {
        drained := steeringQueue.Drain();
      } else {
        drained := followUpQueue.Drain();
      }
    }

    method AbortRun()
      modifies this`activeRun
      ensures activeRun == if old(activeRun).Some? then Some(true) else None
    {
      if activeRun.Some? {
        activeRun := Some(true);
      }
    }

    /** Anything the application may do while the agent is busy. */
    method Perform(action: UserAction)
      requires Valid()
      modifies this`activeRun, steeringQueue, followUpQueue
      ensures QueueValues() == Act(old(QueueValues()), action)
      ensures activeRun == if action.Abort? && old(activeRun).Some? then Some(true) else old(activeRun)
      ensures State() == old(State())
    {
      match action
      case Enqueue(Steering, m) => Steer(m);
      case Enqueue(FollowUp, m) => QueueFollowUp(m);
      case SetMode(name, mode) => SetQueueMode(name, mode);
      case Clear(Steering) => ClearSteeringQueue();
      case Clear(FollowUp) => ClearFollowUpQueue();
      case Abort => AbortRun();
    }

    /** Clears transcript, runtime state and both queues, even in the middle of a run. */
    method Reset()
      requires Valid()
      modifies this, steeringQueue, followUpQueue
      ensures Valid() && State() == Blank() && activeRun == old(activeRun)
      ensures messages == [] && !isStreaming && streamingMessage.None? && pendingToolCalls == {} && errorMessage.None?
      ensures QueueValues().steering == old(QueueValues()).steering.(items := [])
      ensures QueueValues().followUp == old(QueueValues()).followUp.(items := [])
    {
      messages := [];
      isStreaming := false;
      streamingMessage := None;
      pendingToolCalls := {};
      errorMessage := None;
      ClearFollowUpQueue();
      ClearSteeringQueue();
    }

    // ----- Runs

    /** Folds one loop event into the state; refuses, after folding, when no run is active. */
    method ProcessEvents(event: Event) returns (ok: bool)
      modifies this`messages, this`streamingMessage, this`pendingToolCalls, this`errorMessage
      ensures State() == Reduce(old(State()), event)
      ensures messages == if event.MessageEnd? then old(messages) + [event.message] else old(messages)
      ensures streamingMessage ==
        if event.MessageStart? || event.MessageUpdate? then Some(event.message)
        else if event.MessageEnd? || event.AgentEnd? then None
        else old(streamingMessage)
      ensures pendingToolCalls ==
        if event.ToolStart? then old(pendingToolCalls) + {event.call.id}
        else if event.ToolEnd? then old(pendingToolCalls) - {event.call.id}
        else old(pendingToolCalls)
      ensures errorMessage ==
        if event.TurnEnd? && event.message.Assistant? && event.message.body.errorMessage !in {None, Some("")}
        then event.message.body.errorMessage else old(errorMessage)
      ensures ok <==> activeRun.Some?
    {
      match event {
        case MessageStart(m) =>
          streamingMessage := Some(m);
        case MessageUpdate(m) =>
          streamingMessage := Some(m);
        case MessageEnd(m) =>
          streamingMessage := None;
          messages := messages + [m];
        case ToolStart(_, call) =>
          pendingToolCalls := pendingToolCalls + {call.id};
        case ToolEnd(_, call, _, _) =>
          pendingToolCalls := pendingToolCalls - {call.id};
        case TurnEnd(m, _) =>
          if m.Assistant? && m.body.errorMessage.Some? && m.body.errorMessage.value != "" {
            errorMessage := m.body.errorMessage;
          }
        case AgentEnd(_) =>
          streamingMessage := None;
        case AgentStart =>
        case TurnStart =>
        case ToolUpdate(_, _, _) =>
      }
      ok := activeRun.Some?;
    }

    method BeginRun()
      requires Valid() && activeRun.None?
      modifies this
      ensures Valid() && activeRun == Some(false)
      ensures State() == Begun(old(State()))
      ensures messages == old(messages) && pendingToolCalls == old(pendingToolCalls)
      ensures isStreaming && streamingMessage.None? && errorMessage.None?
    {
      activeRun := Some(false);
      isStreaming := true;
      streamingMessage := None;
      errorMessage := None;
    }

    /** Reports a run that threw. `refused` is the first failure event a listener throws on;
        the state is folded before listeners see the event. */
    method HandleRunFailure(failure: Message, refused: Option<nat>) returns (ok: bool)
      requires activeRun.Some? && failure.Assistant?
      modifies this`messages, this`streamingMessage, this`pendingToolCalls, this`errorMessage
      ensures State() == ReduceAll(old(State()), FailureEvents(failure)[..Heard(refused)])
      ensures messages == old(messages) + if refused == Some(0) then [] else [failure]
      ensures ok <==> refused.None? || refused.value > 3
      ensures ok && failure.body.errorMessage.GetOr("") != "" ==> errorMessage == failure.body.errorMessage
    {
      ghost var before, events := State(), FailureEvents(failure);
      hide Reduce, ReduceAll;
      ReduceNone(before, events);
      ReduceNext(before, events, 0);
      ReduceNext(before, events, 1);
      ReduceNext(before, events, 2);
      ReduceNext(before, events, 3);
      assert events[..4] == events;
      var active := ProcessEvents(MessageStart(failure));
      if refused == Some(0) {
        return false;
      }
      active := ProcessEvents(MessageEnd(failure));
      if refused == Some(1) {
        return false;
      }
      active := ProcessEvents(TurnEnd(failure, []));
      if refused == Some(2) {
        return false;
      }
      active := ProcessEvents(AgentEnd([failure]));
      ok := refused != Some(3);
    }

    /** How many of the four failure events the state is folded over. */
    static function Heard(refused: Option<nat>): (n: nat)
      ensures n <= 4
    {
      if refused.Some? && refused.value < 4 then refused.value + 1 else 4
    }

    method FinishRun()
      requires steeringQueue != followUpQueue
      modifies this
      ensures Valid() && activeRun.None?
      ensures State() == Finished(old(State()))
      ensures messages == old(messages) && errorMessage == old(errorMessage)
      ensures !isStreaming && streamingMessage.None? && pendingToolCalls == {}
    {
      isStreaming := false;
      streamingMessage := None;
      pendingToolCalls := {};
      activeRun := None;
    }
  }
}
