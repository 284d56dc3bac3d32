/** The stateful side of the agent: its message queues, its reduced state, and the log of what it did. */
module AgentHost {
  import opened Common
  import opened AgentTypes
  import opened ToolOutcome
  import opened Protocol
  import opened ProtocolFacts

  class PendingMessageQueue {
    var messages: seq<Message>
    const mode: QueueMode

    constructor (mode: QueueMode)
      ensures messages == [] && this.mode == mode
    {
      this.messages := [];
      this.mode := mode;
    }

    ghost function View(): QueueView
      reads this
    {
      QueueView(messages, mode)
    }

    method Enqueue(message: Message)
      modifies this
      ensures messages == old(messages) + [message]
    {
      messages := messages + [message];
    }

    /** Everything at once, or only the oldest message. */
    method Drain() returns (drained: seq<Message>)
      modifies this
      ensures old(messages) == drained + messages
      ensures |drained| == Takes(mode, |old(messages)|)
      ensures mode == OneAtATime ==> |drained| <= 1
      ensures mode == All ==> messages == []
      ensures drained == [] ==> old(messages) == []
    {
      if mode == All {
        drained := messages;
        messages := [];
        return;
      }
      if messages == [] {
        return [];
      }
      drained := [messages[0]];
      messages := messages[1..];
    }
  }

  class Agent {
    var messages: seq<Message>
    var isStreaming: bool
    var streamingMessage: Option<Message>
    var pendingToolCalls: set<string>
    var errorMessage: Option<string>
    var activeRun: bool
    const steeringQueue: PendingMessageQueue
    const followUpQueue: PendingMessageQueue
    const tools: seq<Tool>
    const sequentialTools: bool

    ghost const initial: seq<Message>
    ghost var log: seq<Action>
    ghost var mon: Monitor  // where the log has got to

    ghost function State(): AgentState
      reads this
    {
      AgentState(messages, isStreaming, streamingMessage, pendingToolCalls, errorMessage)
    }

    ghost predicate ExplainedBy(l: seq<Action>)
      reads this, steeringQueue, followUpQueue
    {
      Explains(initial, l, mon, State(), steeringQueue.View(), followUpQueue.View())
    }

    /** The quantifier keeps the log folded: its history is looked into only where `ExplainedBy` is mentioned. */
    ghost predicate Valid()
      reads this, steeringQueue, followUpQueue
    {
      && steeringQueue != followUpQueue
      && (activeRun <==> !mon.phase.Idle?)
      && forall l {:trigger ExplainedBy(l)} :: l == log ==> ExplainedBy(l)
    }

    constructor (initial: seq<Message>, tools: seq<Tool>, sequentialTools: bool,
                 steeringMode: QueueMode, followUpMode: QueueMode)
      ensures Valid() && fresh(steeringQueue) && fresh(followUpQueue) && !activeRun
      ensures mon == Fresh(initial) && log == [] && this.initial == initial
      ensures State() == AgentState(initial, false, None, {}, None)
      ensures this.tools == tools && this.sequentialTools == sequentialTools
      ensures steeringQueue.mode == steeringMode && followUpQueue.mode == followUpMode
      ensures steeringQueue.messages == [] && followUpQueue.messages == []
    {
      this.messages := initial;
      this.isStreaming := false;
      this.streamingMessage := None;
      this.pendingToolCalls := {};
      this.errorMessage := None;
      this.activeRun := false;
      this.steeringQueue := new PendingMessageQueue(steeringMode);
      this.followUpQueue := new PendingMessageQueue(followUpMode);
      this.tools := tools;
      this.sequentialTools := sequentialTools;
      this.initial := initial;
      this.log := [];
      this.mon := Fresh(initial);
    }

    /** Append to the log what the agent has just done; the queues were as given before it. */
    ghost method Record(a: Action, state: AgentState, steering: QueueView, followUp: QueueView)
      requires Explains(initial, log, mon, state, steering, followUp)
      requires steeringQueue != followUpQueue && Advance(mon, a).Some? && State() == Reduce(state, a)
      requires QueueEffect(Steering, a, steering, steeringQueue.View())
      requires QueueEffect(FollowUp, a, followUp, followUpQueue.View())
      requires activeRun <==> !Advance(mon, a).value.phase.Idle?
      modifies this`log, this`mon
      ensures Valid()
      ensures log == old(log) + [a] && mon == Advance(old(mon), a).value
    {
      ghost var next := Advance(mon, a).value;
      ExplainsStep(initial, log, a, mon, state, steering, followUp, steeringQueue.View(), followUpQueue.View());
      assert Explains(initial, log + [a], next, State(), steeringQueue.View(), followUpQueue.View());
      log := log + [a];
      mon := next;
      assert ExplainedBy(log);
    }

    /** Reduce the state for a loop event. */
    method ProcessEvents(event: AgentEvent)
      requires Valid() && activeRun && Advance(mon, Emit(event)).Some?
      modifies this
      ensures Valid() && activeRun
      ensures mon == Advance(old(mon), Emit(event)).value
      ensures log == old(log) + [Emit(event)] && Silent(old(log), log)
    {
      assert ExplainedBy(log);
      match event {
        case MessageStart(m) => streamingMessage := Some(m);
        case MessageUpdate(m) => streamingMessage := Some(m);
        case MessageEnd(m) =>
          streamingMessage := None;
          messages := messages + [m];
        case ToolStart(id, _, _) => pendingToolCalls := pendingToolCalls + {id};
        case ToolEnd(id, _, _, _) => pendingToolCalls := pendingToolCalls - {id};
        case TurnEnd(message, _) =>
          if message.Assistant? && message.assistant.errorMessage.Some? && message.assistant.errorMessage.value != "" {
            errorMessage := message.assistant.errorMessage;
          }
        case AgentEnd(_) => streamingMessage := None;
        case _ =>
      }
      EmitStaysBusy(mon, event);
      SilentStep(log, Emit(event));
      Record(Emit(event), old(State()), steeringQueue.View(), followUpQueue.View());
    }

    static lemma EmitStaysBusy(m: Monitor, event: AgentEvent)
      requires Advance(m, Emit(event)).Some?
      ensures !Advance(m, Emit(event)).value.phase.Idle?
    {
    }

    /** An action the agent's state does not depend on. */
    ghost method Note(a: Action)
      requires Valid() && activeRun && Advance(mon, a).Some?
      requires a.Request? || a.NextTurn? || a.AbortSeen? || a.Fail?
      modifies this`log, this`mon
      ensures Valid()
      ensures mon == Advance(old(mon), a).value
      ensures log == old(log) + [a] && Silent(old(log), log)
    {
      assert ExplainedBy(log);
      SilentStep(log, a);
      Record(a, State(), steeringQueue.View(), followUpQueue.View());
    }

    method Steer(message: Message)
      requires Valid()
      modifies this`log, this`mon, steeringQueue
      ensures Valid() && mon == old(mon)
      ensures steeringQueue.messages == old(steeringQueue.messages) + [message]
      ensures log == old(log) + [Enqueue(Steering, message)]
      ensures Enqueued(Steering, log) == old(Enqueued(Steering, log)) + [message]
      ensures Enqueued(FollowUp, log) == old(Enqueued(FollowUp, log))
    {
      assert ExplainedBy(log);
      EnqueuedStep(Steering, log, Enqueue(Steering, message));
      EnqueuedStep(FollowUp, log, Enqueue(Steering, message));
      ghost var before := steeringQueue.View();
      steeringQueue.Enqueue(message);
      Record(Enqueue(Steering, message), State(), before, followUpQueue.View());
    }

    method FollowUpWith(message: Message)
      requires Valid()
      modifies this`log, this`mon, followUpQueue
      ensures Valid() && mon == old(mon)
      ensures followUpQueue.messages == old(followUpQueue.messages) + [message]
      ensures log == old(log) + [Enqueue(FollowUp, message)]
      ensures Enqueued(Steering, log) == old(Enqueued(Steering, log))
      ensures Enqueued(FollowUp, log) == old(Enqueued(FollowUp, log)) + [message]
    {
      assert ExplainedBy(log);
      EnqueuedStep(Steering, log, Enqueue(FollowUp, message));
      EnqueuedStep(FollowUp, log, Enqueue(FollowUp, message));
      ghost var before := followUpQueue.View();
      followUpQueue.Enqueue(message);
      Record(Enqueue(FollowUp, message), State(), steeringQueue.View(), before);
    }

    /** Messages that arrive while a run is under way; each queue only sees its own order of arrival. */
    method Receive(steered: seq<Message>, followed: seq<Message>)
      requires Valid()
      modifies this`log, this`mon, steeringQueue, followUpQueue
      ensures Valid() && mon == old(mon) && old(log) <= log
      ensures steeringQueue.messages == old(steeringQueue.messages) + steered
      ensures followUpQueue.messages == old(followUpQueue.messages) + followed
      ensures Enqueued(Steering, log) == old(Enqueued(Steering, log)) + steered
      ensures Enqueued(FollowUp, log) == old(Enqueued(FollowUp, log)) + followed
    {
      for i := 0 to |steered|
        invariant Valid() && mon == old(mon) && old(log) <= log
        invariant steeringQueue.messages == old(steeringQueue.messages) + steered[..i]
        invariant followUpQueue.messages == old(followUpQueue.messages)
        invariant Enqueued(Steering, log) == old(Enqueued(Steering, log)) + steered[..i]
        invariant Enqueued(FollowUp, log) == old(Enqueued(FollowUp, log))
      {
        Steer(steered[i]);
      }
      for i := 0 to |followed|
        invariant Valid() && mon == old(mon) && old(log) <= log
        invariant steeringQueue.messages == old(steeringQueue.messages) + steered
        invariant followUpQueue.messages == old(followUpQueue.messages) + followed[..i]
        invariant Enqueued(Steering, log) == old(Enqueued(Steering, log)) + steered
        invariant Enqueued(FollowUp, log) == old(Enqueued(FollowUp, log)) + followed[..i]
      {
        FollowUpWith(followed[i]);
      }
    }

    /** The loop asks for steering messages; the first poll of some runs is skipped. */
    method GetSteeringMessages(skip: bool) returns (drained: seq<Message>)
      requires Valid() && activeRun && SteeringDue(mon, skip)
      modifies this`log, this`mon, steeringQueue
      ensures Valid() && mon == AfterPoll(old(mon), Steering, drained)
      ensures log == old(log) + [Poll(Steering, drained)] && Silent(old(log), log)
      ensures |drained| == if skip then 0 else Takes(steeringQueue.mode, |old(steeringQueue.messages)|)
      ensures old(steeringQueue.messages) == drained + steeringQueue.messages
    {
      assert ExplainedBy(log);
      ghost var before := steeringQueue.View();
      if skip {
        drained := [];
      } else {
        drained := steeringQueue.Drain();
      }
      PollAllowed(mon, Steering, drained);
      SilentStep(log, Poll(Steering, drained));
      Record(Poll(Steering, drained), State(), before, followUpQueue.View());
    }

    method GetFollowUpMessages() returns (drained: seq<Message>)
      requires Valid() && activeRun && mon.phase == Polled(false) && mon.pending == []
      modifies this`log, this`mon, followUpQueue
      ensures Valid() && mon == AfterPoll(old(mon), FollowUp, drained)
      ensures log == old(log) + [Poll(FollowUp, drained)] && Silent(old(log), log)
      ensures |drained| == Takes(followUpQueue.mode, |old(followUpQueue.messages)|)
      ensures old(followUpQueue.messages) == drained + followUpQueue.messages
    {
      assert ExplainedBy(log);
      ghost var before := followUpQueue.View();
      drained := followUpQueue.Drain();
      PollAllowed(mon, FollowUp, drained);
      SilentStep(log, Poll(FollowUp, drained));
      Record(Poll(FollowUp, drained), State(), steeringQueue.View(), before);
    }

    /** The first half of runWithLifecycle, with the prompts already out of their queue. */
    method EnterRun(source: Source, prompts: seq<Message>, ghost steering: QueueView, ghost followUp: QueueView)
      requires steeringQueue != followUpQueue && !activeRun && mon.phase.Idle?
      requires Explains(initial, log, mon, State(), steering, followUp)
      requires QueueEffect(Steering, Begin(source, prompts), steering, steeringQueue.View())
      requires QueueEffect(FollowUp, Begin(source, prompts), followUp, followUpQueue.View())
      modifies this
      ensures Valid() && activeRun && messages == old(messages)
      ensures mon == AfterBegin(old(mon), source, prompts) && Silent(old(log), log)
    {
      ghost var state := State();
      SilentStep(log, Begin(source, prompts));
      activeRun := true;
      isStreaming := true;
      streamingMessage := None;
      errorMessage := None;
      Record(Begin(source, prompts), state, steering, followUp);
    }

    /** A run that the caller starts, with prompts or, for a continuation, without. */
    method BeginRun(prompts: seq<Message>)
      requires Valid() && !activeRun
      modifies this
      ensures Valid() && activeRun && messages == old(messages)
      ensures mon == AfterBegin(old(mon), Caller, prompts) && Silent(old(log), log)
    {
      assert ExplainedBy(log);
      EnterRun(Caller, prompts, steeringQueue.View(), followUpQueue.View());
    }

    /** A run started from the steering queue; nothing happens when the queue is empty. */
    method BeginFromSteering() returns (prompts: seq<Message>)
      requires Valid() && !activeRun
      modifies this, steeringQueue
      ensures Valid() && messages == old(messages)
      ensures activeRun <==> prompts != []
      ensures |prompts| == Takes(steeringQueue.mode, |old(steeringQueue.messages)|)
      ensures old(steeringQueue.messages) == prompts + steeringQueue.messages
      ensures prompts == [] ==>
        steeringQueue.messages == [] && mon == old(mon) && State() == old(State()) && log == old(log)
      ensures prompts != [] ==> mon == AfterBegin(old(mon), Steering, prompts) && Silent(old(log), log)
    {
      assert ExplainedBy(log);
      ghost var before := steeringQueue.View();
      prompts := steeringQueue.Drain();
      if prompts != [] {
        EnterRun(Steering, prompts, before, followUpQueue.View());
      }
    }

    /** A run started from the follow-up queue; nothing happens when the queue is empty. */
    method BeginFromFollowUps() returns (prompts: seq<Message>)
      requires Valid() && !activeRun
      modifies this, followUpQueue
      ensures Valid() && messages == old(messages)
      ensures activeRun <==> prompts != []
      ensures |prompts| == Takes(followUpQueue.mode, |old(followUpQueue.messages)|)
      ensures old(followUpQueue.messages) == prompts + followUpQueue.messages
      ensures prompts == [] ==>
        followUpQueue.messages == [] && mon == old(mon) && State() == old(State()) && log == old(log)
      ensures prompts != [] ==> mon == AfterBegin(old(mon), FollowUp, prompts) && Silent(old(log), log)
    {
      assert ExplainedBy(log);
      ghost var before := followUpQueue.View();
      prompts := followUpQueue.Drain();
      if prompts != [] {
        EnterRun(FollowUp, prompts, steeringQueue.View(), before);
      }
    }

    /** finishRun: the runtime-owned state is cleared however the run ended. */
    method FinishRun()
      requires Valid() && mon.phase.Finished?
      modifies this
      ensures Valid() && !activeRun && !isStreaming && streamingMessage == None && pendingToolCalls == {}
      ensures messages == old(messages) && errorMessage == old(errorMessage) && mon == old(mon).(phase := Idle)
      ensures log == old(log) + [Settle] && Silent(old(log), log)
    {
      assert ExplainedBy(log);
      SilentStep(log, Settle);
      isStreaming := false;
      streamingMessage := None;
      pendingToolCalls := {};
      activeRun := false;
      Record(Settle, old(State()), steeringQueue.View(), followUpQueue.View());
    }
  }
}
