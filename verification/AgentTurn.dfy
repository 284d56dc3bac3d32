/** One turn of the agent loop: streaming a reply, running its tool calls, and the hooks after them. */
module AgentTurn {
  import opened Common
  import opened AgentTypes
  import opened ToolOutcome
  import opened ToolSchedule
  import opened Protocol
  import opened ProtocolFacts
  import opened AgentHost
  import opened BatchTally
  import opened ToolExecutors

  // ----- Streaming a reply -----

  datatype StreamEvent = Opened(partial: AssistantMessage) | Updated(partial: AssistantMessage)

  /** A stream ends with a done/error event, or just ends, or its iteration throws. */
  datatype StreamEnding = Terminal | Exhausted | Broken(message: string)

  /** What the model call does: it may throw before there is a stream; `final` is the stream's result. */
  datatype StreamScript = StreamScript(
    openThrows: Option<string>,
    events: seq<StreamEvent>,
    ending: StreamEnding,
    final: AssistantMessage)
  {
    predicate Throws() {
      openThrows.Some? || ending.Broken?
    }

    function Message(): string {
      if openThrows.Some? then openThrows.value else if ending.Broken? then ending.message else ""
    }

    /** How often the stream starts before it throws or ends. */
    function StartsSeen(): nat {
      if openThrows.Some? then 0 else Starts(events)
    }
  }

  function Starts(events: seq<StreamEvent>): nat {
    if events == [] then 0 else Starts(events[..|events| - 1]) + (if events[|events| - 1].Opened? then 1 else 0)
  }

  /** The loop context while a reply streams in: a start adds a slot, an update overwrites the last slot. */
  function Slots(base: seq<Message>, events: seq<StreamEvent>): (r: seq<Message>)
    ensures |r| == |base| + Starts(events) && base <= r
  {
    if events == [] then base
    else
      var front := events[..|events| - 1];
      var before := Slots(base, front);
      SlotAfter(before, events[|events| - 1], Starts(front) > 0)
  }

  function SlotAfter(before: seq<Message>, event: StreamEvent, started: bool): (r: seq<Message>)
    requires started ==> before != []
    ensures |r| == |before| + (if event.Opened? then 1 else 0)
  {
    match event
    case Opened(partial) => before + [Assistant(partial)]
    case Updated(partial) => if started then before[|before| - 1 := Assistant(partial)] else before
  }

  /** The loop context once the reply is complete. */
  function ContextAfter(base: seq<Message>, events: seq<StreamEvent>, final: AssistantMessage): seq<Message> {
    var before := Slots(base, events);
    if Starts(events) > 0 then before[|before| - 1 := Assistant(final)] else before + [Assistant(final)]
  }

  /** A reply takes exactly one place in the transcript if and only if its stream starts at most once. */
  lemma OnePlaceIffOneStart(base: seq<Message>, events: seq<StreamEvent>, final: AssistantMessage)
    ensures ContextAfter(base, events, final) == base + [Assistant(final)] <==> Starts(events) <= 1
  {
    var after := ContextAfter(base, events, final);
    if Starts(events) == 1 {
      assert after[..|base|] == base;
    } else if Starts(events) > 1 {
      assert |after| > |base| + 1;
    }
  }

  /** What one event of the stream makes the loop emit: updates before a start are not shown. */
  function EventActions(event: StreamEvent, started: bool): seq<Action> {
    match event
    case Opened(partial) => [Emit(MessageStart(Assistant(partial)))]
    case Updated(partial) => if started then [Emit(MessageUpdate(Assistant(partial)))] else []
  }

  function StreamActions(events: seq<StreamEvent>): seq<Action> {
    if events == [] then []
    else
      var front := events[..|events| - 1];
      StreamActions(front) + EventActions(events[|events| - 1], Starts(front) > 0)
  }

  /** What the final message makes the loop emit: one end, and a start unless the stream had one. */
  function FinalActions(final: AssistantMessage, started: bool): seq<Action> {
    (if started then [] else [Emit(MessageStart(Assistant(final)))]) + [Emit(MessageEnd(Assistant(final)))]
  }

  /** The log of one model call, up to its final message. */
  function OpeningActions(context: seq<Message>, script: StreamScript): seq<Action> {
    [Request(context)] + if script.openThrows.Some? then [] else StreamActions(script.events)
  }

  /** The log of one model call. */
  function CallActions(context: seq<Message>, script: StreamScript): seq<Action> {
    OpeningActions(context, script)
    + if script.openThrows.Some? || script.ending.Broken? then []
      else FinalActions(script.final, Starts(script.events) > 0)
  }

  lemma LogRegrouped(a: seq<Action>, b: seq<Action>, c: seq<Action>)
    ensures a + b + c == a + (b + c) && a + (b + []) == a + b
  {
    assert b + [] == b;
  }

  /** One more event of a stream. */
  lemma StreamStep(base: seq<Message>, before: seq<StreamEvent>, event: StreamEvent)
    ensures Starts(before + [event]) == Starts(before) + (if event.Opened? then 1 else 0)
    ensures Slots(base, before + [event]) == SlotAfter(Slots(base, before), event, Starts(before) > 0)
    ensures StreamActions(before + [event]) == StreamActions(before) + EventActions(event, Starts(before) > 0)
  {
    assert (before + [event])[..|before|] == before;
  }

  class AgentContext {
    var messages: seq<Message>

    constructor (messages: seq<Message>)
      ensures this.messages == messages
    {
      this.messages := messages;
    }
  }

  /** A second start opens a message inside a message. */
  function TornBy(run: RunView, starts: nat): RunView {
    if starts > 1 then run.(torn := true) else run
  }

  /** Where the protocol stands when a stream has started `starts` times. */
  function StreamingAt(m: Monitor, starts: nat): Monitor {
    m.(phase := if starts > 0 then Streaming else Requested, run := TornBy(m.run, starts))
  }

  /** One event of the stream, before its end. */
  method OnStreamEvent(agent: Agent, context: AgentContext, ghost m0: Monitor, ghost starts: nat, event: StreamEvent,
                       started: bool)
    returns (started': bool)
    requires agent.Valid() && agent.activeRun && agent.mon == StreamingAt(m0, starts) && (started <==> starts > 0)
    requires started ==> context.messages != []
    modifies agent, context
    ensures agent.Valid() && agent.activeRun && Silent(old(agent.log), agent.log)
    ensures agent.mon == StreamingAt(m0, if event.Opened? then starts + 1 else starts)
    ensures started' <==> started || event.Opened?
    ensures context.messages == SlotAfter(old(context.messages), event, started)
    ensures agent.log == old(agent.log) + EventActions(event, started)
  {
    started' := started;
    match event {
      case Opened(partial) =>
        context.messages := context.messages + [Assistant(partial)];
        started' := true;
        agent.ProcessEvents(MessageStart(Assistant(partial)));
      case Updated(partial) =>
        if started {
          context.messages := context.messages[|context.messages| - 1 := Assistant(partial)];
          agent.ProcessEvents(MessageUpdate(Assistant(partial)));
        }
    }
  }

  /** What has been read of a stream: monitor, context and log are what `events` call for. */
  ghost predicate HasRead(agent: Agent, context: AgentContext, m0: Monitor, base: seq<Message>, log0: seq<Action>,
                          events: seq<StreamEvent>)
    reads agent, agent.steeringQueue, agent.followUpQueue, context
  {
    && agent.Valid() && agent.activeRun && Silent(log0, agent.log)
    && agent.mon == StreamingAt(m0, Starts(events)) && context.messages == Slots(base, events)
    && agent.log == log0 + StreamActions(events)
  }

  method ReadOne(agent: Agent, context: AgentContext, ghost m0: Monitor, ghost base: seq<Message>,
                 ghost log0: seq<Action>, ghost before: seq<StreamEvent>, event: StreamEvent, started: bool)
    returns (started': bool)
    requires HasRead(agent, context, m0, base, log0, before) && (started <==> Starts(before) > 0)
    modifies agent, context
    ensures HasRead(agent, context, m0, base, log0, before + [event])
    ensures started' <==> Starts(before + [event]) > 0
  {
    StreamStep(base, before, event);
    LogRegrouped(log0, StreamActions(before), EventActions(event, started));
    started' := OnStreamEvent(agent, context, m0, Starts(before), event, started);
  }

  /** The events of the stream, up to where it ends or throws. */
  method ReadEvents(agent: Agent, context: AgentContext, events: seq<StreamEvent>)
    returns (started: bool)
    requires agent.Valid() && agent.activeRun && agent.mon.phase == Requested
    modifies agent, context
    ensures agent.Valid() && agent.activeRun && Silent(old(agent.log), agent.log)
    ensures agent.mon == StreamingAt(old(agent.mon), Starts(events)) && (started <==> Starts(events) > 0)
    ensures context.messages == Slots(old(context.messages), events)
    ensures agent.log == old(agent.log) + StreamActions(events)
  {
    ghost var m0, base, log0 := agent.mon, context.messages, agent.log;
    started := false;
    assert log0 + StreamActions([]) == log0;
    for i := 0 to |events|
      invariant HasRead(agent, context, m0, base, log0, events[..i]) && (started <==> Starts(events[..i]) > 0)
    {
      assert events[..i] + [events[i]] == events[..i + 1];
      started := ReadOne(agent, context, m0, base, log0, events[..i], events[i], started);
    }
    assert events[..|events|] == events;
  }

  /** The final message takes the place of the last partial one, or a place of its own. */
  method PlaceReply(agent: Agent, context: AgentContext, ghost m0: Monitor, ghost starts: nat, final: AssistantMessage,
                    started: bool)
    requires agent.Valid() && agent.activeRun && agent.mon == StreamingAt(m0, starts) && (started <==> starts > 0)
    requires started ==> context.messages != []
    modifies agent, context
    ensures agent.Valid() && agent.activeRun && Silent(old(agent.log), agent.log)
    ensures agent.mon
         == Deliver(m0.(run := TornBy(m0.run, starts)), Model, Assistant(final), Responded(final, NO_TOOLS))
    ensures var before := old(context.messages);
            context.messages
            == if started then before[|before| - 1 := Assistant(final)] else before + [Assistant(final)]
    ensures agent.log == old(agent.log) + FinalActions(final, started)
  {
    if started {
      context.messages := context.messages[|context.messages| - 1 := Assistant(final)];
    } else {
      context.messages := context.messages + [Assistant(final)];
      agent.ProcessEvents(MessageStart(Assistant(final)));
    }
    agent.ProcessEvents(MessageEnd(Assistant(final)));
  }

  lemma ReplyPlaced(h: seq<Delivery>, base: seq<Message>, script: StreamScript)
    requires base == Contents(h)
    ensures ContextAfter(base, script.events, script.final) == Contents(h + [Delivery(Model, Assistant(script.final))])
       <==> Starts(script.events) <= 1
  {
    OnePlaceIffOneStart(base, script.events, script.final);
    ContentsAppend(h, Delivery(Model, Assistant(script.final)));
  }

  /**
   * One model call. It throws exactly when the script does; a reply is delivered once, and the loop context stays the
   * agent's transcript if and only if the stream started at most once.
   */
  method StreamAssistantResponse(agent: Agent, context: AgentContext, script: StreamScript)
    returns (reply: Settled<AssistantMessage>)
    requires agent.Valid() && agent.activeRun
    requires agent.mon.phase == Injecting(None) && agent.mon.pending == [] && agent.mon.polledOnce
    requires context.messages == Contents(agent.mon.history)
    modifies agent, context
    ensures agent.Valid() && agent.activeRun && Silent(old(agent.log), agent.log)
    ensures agent.log == old(agent.log) + CallActions(old(context.messages), script)
    ensures reply.Throws? <==> script.Throws()
    ensures reply.Throws? ==>
      reply.message == script.Message() && agent.mon == StreamingAt(old(agent.mon), script.StartsSeen())
    ensures reply.Returns? ==>
      && reply.value == script.final
      && agent.mon == Deliver(old(agent.mon).(run := TornBy(old(agent.mon).run, Starts(script.events))),
                              Model, Assistant(reply.value), Responded(reply.value, NO_TOOLS))
      && context.messages == ContextAfter(old(context.messages), script.events, reply.value)
      && (context.messages == Contents(agent.mon.history) <==> Starts(script.events) <= 1)
  {
    ghost var m0, base, log := agent.mon, context.messages, agent.log;
    ghost var opening, closing := OpeningActions(base, script), FinalActions(script.final, Starts(script.events) > 0);
    var threw, started := OpenStream(agent, context, script);
    LogRegrouped(log, opening, closing);
    if threw.Some? {
      return Throws(threw.value);
    }
    PlaceReply(agent, context, m0, Starts(script.events), script.final, started);
    ReplyPlaced(m0.history, base, script);
    return Returns(script.final);
  }

  /** One model call up to its final message: the request, and the events of the stream, unless one of them throws. */
  method OpenStream(agent: Agent, context: AgentContext, script: StreamScript)
    returns (threw: Option<string>, started: bool)
    requires agent.Valid() && agent.activeRun
    requires agent.mon.phase == Injecting(None) && agent.mon.pending == [] && agent.mon.polledOnce
    requires context.messages == Contents(agent.mon.history)
    modifies agent, context
    ensures agent.Valid() && agent.activeRun && Silent(old(agent.log), agent.log)
    ensures agent.log == old(agent.log) + OpeningActions(old(context.messages), script)
    ensures agent.mon == StreamingAt(old(agent.mon), script.StartsSeen())
    ensures threw == if script.Throws() then Some(script.Message()) else None
    ensures threw.None? ==> context.messages == Slots(old(context.messages), script.events)
    ensures threw.None? ==> (started <==> Starts(script.events) > 0)
  {
    ghost var log, request := agent.log, [Request(context.messages)];
    agent.Note(Request(context.messages));
    started := false;
    LogRegrouped(log, request, StreamActions(script.events));
    if script.openThrows.Some? {
      return script.openThrows, false;
    }
    started := ReadEvents(agent, context, script.events);
    threw := if script.ending.Broken? then Some(script.ending.message) else None;
  }

  // ----- A turn -----

  /** What the hooks after a turn do: `prepareNextTurn` keeps the context; either hook may throw. */
  datatype Hooks = GoOn | StopNow | HookThrows(message: string)

  /** The environment of one turn. */
  datatype TurnScript = TurnScript(stream: StreamScript, behave: nat -> Behaviour, hooks: Hooks)

  datatype Ending = ThrewBeforeReply | ThrewMidReply | ReplyFailed | HookThrew | Stopped | WentOn

  /** How a turn ends, as far as its script decides. */
  function EndingOf(turn: TurnScript): Ending {
    if turn.stream.Throws() then if turn.stream.StartsSeen() > 0 then ThrewMidReply else ThrewBeforeReply
    else if turn.stream.final.Failed() then ReplyFailed
    else match turn.hooks
      case GoOn => WentOn
      case StopNow => Stopped
      case HookThrows(_) => HookThrew
  }

  predicate Throwing(e: Ending) {
    e.ThrewBeforeReply? || e.ThrewMidReply? || e.HookThrew?
  }

  /** What a turn throws. */
  function ThrownBy(turn: TurnScript): (r: Option<string>)
    ensures r.Some? <==> Throwing(EndingOf(turn))
  {
    match EndingOf(turn)
    case ThrewBeforeReply => Some(turn.stream.Message())
    case ThrewMidReply => Some(turn.stream.Message())
    case HookThrew => Some(turn.hooks.message)
    case _ => None
  }

  /** The outcomes of the handled tool calls of a reply. */
  function BatchOutcomes(tools: seq<Tool>, reply: AssistantMessage, behave: nat -> Behaviour): seq<Finalized> {
    var calls := ToolCalls(reply.content);
    Outcomes(tools, calls, behave, Handled(|calls|, behave))
  }

  /** The results of the handled tool calls of a reply, as they enter the transcript. */
  function ResultDeliveries(tools: seq<Tool>, reply: AssistantMessage, behave: nat -> Behaviour): seq<Delivery> {
    ToolDeliveries(ResultMessages(BatchOutcomes(tools, reply, behave)))
  }

  /** The tool calls of a reply ask for another turn. */
  predicate BatchGoesOn(tools: seq<Tool>, reply: AssistantMessage, behave: nat -> Behaviour) {
    ToolCalls(reply.content) != [] && !ShouldTerminate(BatchOutcomes(tools, reply, behave))
  }

  predicate GoesOn(tools: seq<Tool>, turn: TurnScript) {
    BatchGoesOn(tools, turn.stream.final, turn.behave)
  }

  /** What a turn adds to the transcript after the messages injected before it. */
  function TurnDeliveries(tools: seq<Tool>, turn: TurnScript): seq<Delivery> {
    var reply := turn.stream.final;
    if turn.stream.Throws() then []
    else
      [Delivery(Model, Assistant(reply))]
      + if reply.Failed() then [] else ResultDeliveries(tools, reply, turn.behave)
  }

  // ----- What a turn comes to, from its script alone -----

  /** The model call of a turn throws, before there is a stream or in the middle of it. */
  ghost predicate CallThrows(stream: StreamScript, message: string) {
    (stream.openThrows == Some(message)) || (stream.openThrows.None? && stream.ending == Broken(message))
  }

  /** The reply says that it went wrong. */
  ghost predicate SaysItFailed(reply: AssistantMessage) {
    reply.stopReason == StopReason.Error || reply.stopReason == StopReason.Aborted
  }

  /** What a turn adds: its reply, and a result for each handled call unless the reply failed; nothing if it throws. */
  ghost predicate GivesTurn(tools: seq<Tool>, turn: TurnScript, given: seq<Delivery>) {
    var reply := turn.stream.final;
    if exists message :: CallThrows(turn.stream, message) then given == []
    else if SaysItFailed(reply) then given == [Delivery(Model, Assistant(reply))]
    else exists messages, stop ::
      && BatchTells(tools, ToolCalls(reply.content), turn.behave, messages, stop)
      && |given| == 1 + |messages| && given[0] == Delivery(Model, Assistant(reply))
      && forall i :: 0 <= i < |messages| ==> given[1 + i] == Delivery(ToolRun, ToolResult(messages[i]))
  }

  /** A reply asks for another turn: it has calls, and those that are handled do not all ask to stop. */
  ghost predicate AsksOn(tools: seq<Tool>, turn: TurnScript) {
    var calls := ToolCalls(turn.stream.final.content);
    calls != [] && exists n: nat :: HandlesFirst(calls, turn.behave, n) && !AllAsk(tools, calls, turn.behave, n)
  }

  lemma TurnDeliveriesTell(tools: seq<Tool>, turn: TurnScript)
    ensures GivesTurn(tools, turn, TurnDeliveries(tools, turn))
  {
    var calls := ToolCalls(turn.stream.final.content);
    var fs := BatchOutcomes(tools, turn.stream.final, turn.behave);
    if turn.stream.Throws() {
      assert CallThrows(turn.stream, turn.stream.Message());
    } else {
      OutcomesTell(tools, calls, turn.behave);
      assert BatchTells(tools, calls, turn.behave, ResultMessages(fs), ShouldTerminate(fs));
    }
  }

  lemma GoesOnAsAsked(tools: seq<Tool>, turn: TurnScript)
    ensures GoesOn(tools, turn) <==> AsksOn(tools, turn)
  {
    var calls := ToolCalls(turn.stream.final.content);
    var handled := Handled(|calls|, turn.behave);
    StopsWhenAllAsk(tools, calls, turn.behave, handled);
    assert HandlesFirst(calls, turn.behave, handled);
    forall n: nat | HandlesFirst(calls, turn.behave, n) ensures n == handled {
      OneHandledCount(calls, turn.behave, n, handled);
    }
  }

  /** How a turn ends: what its model call, its reply and its hooks say decides. */
  ghost predicate TurnTells(tools: seq<Tool>, turn: TurnScript, outcome: TurnOutcome) {
    if exists message :: CallThrows(turn.stream, message)
    then outcome.TurnThrew? && CallThrows(turn.stream, outcome.message)
    else if SaysItFailed(turn.stream.final) then outcome == TurnFailed
    else if turn.hooks.HookThrows? then outcome == TurnThrew(turn.hooks.message)
    else outcome.TurnDone? && (outcome.stop <==> turn.hooks.StopNow?) && (outcome.more <==> AsksOn(tools, turn))
  }

  datatype TurnOutcome = TurnDone(more: bool, stop: bool) | TurnFailed | TurnThrew(message: string)

  /** The three records of the conversation agree: loop context, new messages, and the agent's transcript. */
  ghost predicate InSync(agent: Agent, context: AgentContext, newMessages: seq<Message>)
    reads agent, agent.steeringQueue, agent.followUpQueue, context
  {
    && agent.Valid() && agent.activeRun
    && agent.mon.runStart <= |agent.mon.history|
    && context.messages == Contents(agent.mon.history)
    && newMessages == Contents(agent.mon.history)[agent.mon.runStart..]
  }

  /** The same run, further on: nothing that was in the transcript is gone. */
  ghost predicate Further(m: Monitor, m': Monitor) {
    m.history <= m'.history && m'.runStart == m.runStart
  }

  lemma FurtherThan(m: Monitor, m1: Monitor, m2: Monitor, a: seq<Delivery>, b: seq<Delivery>)
    requires Further(m, m1) && m2.history == m1.history + a + b && m2.runStart == m1.runStart
    ensures Further(m, m2)
  {
  }

  /** Messages taken from a source, as they enter the transcript. */
  function Injected(source: Source, messages: seq<Message>): (r: seq<Delivery>)
    ensures |r| == |messages|
    ensures forall i :: 0 <= i < |r| ==> r[i] == Delivery(From(source), messages[i])
  {
    seq(|messages|, i requires 0 <= i < |messages| => Delivery(From(source), messages[i]))
  }

  /** The part of a transcript that neither the caller nor a queue supplied. */
  function Unprompted(history: seq<Delivery>): seq<Delivery> {
    if history == [] then []
    else
      var d := history[|history| - 1];
      Unprompted(history[..|history| - 1]) + (if d.origin.From? then [] else [d])
  }

  lemma {:induction false} UnpromptedAppend(a: seq<Delivery>, b: seq<Delivery>)
    ensures Unprompted(a + b) == Unprompted(a) + Unprompted(b)
  {
    if b == [] {
      assert a + b == a;
    } else {
      UnpromptedAppend(a, b[..|b| - 1]);
      assert (a + b)[..|a + b| - 1] == a + b[..|b| - 1];
    }
  }

  lemma {:induction false} UnpromptedUniform(h: seq<Delivery>, from: bool)
    requires forall i :: 0 <= i < |h| ==> (h[i].origin.From? <==> from)
    ensures Unprompted(h) == if from then [] else h
  {
    if h != [] {
      UnpromptedUniform(h[..|h| - 1], from);
    }
  }

  /** Messages injected before a turn, and what the turn itself adds. */
  lemma UnpromptedTurn(h: seq<Delivery>, source: Source, messages: seq<Message>, own: seq<Delivery>)
    requires forall i :: 0 <= i < |own| ==> !own[i].origin.From?
    ensures Unprompted(h + Injected(source, messages) + own) == Unprompted(h) + own
  {
    UnpromptedAppend(h + Injected(source, messages), own);
    UnpromptedPrompts(h, source, messages);
    UnpromptedUniform(own, false);
  }

  lemma TurnsAreUnprompted(tools: seq<Tool>, turn: TurnScript)
    ensures forall i :: 0 <= i < |TurnDeliveries(tools, turn)| ==> !TurnDeliveries(tools, turn)[i].origin.From?
  {
  }

  lemma UnpromptedPrompts(h: seq<Delivery>, source: Source, messages: seq<Message>)
    ensures Unprompted(h + Injected(source, messages)) == Unprompted(h)
  {
    UnpromptedAppend(h, Injected(source, messages));
    UnpromptedUniform(Injected(source, messages), true);
  }

  /** Emit the start and end of the next held message. */
  method InjectOne(agent: Agent, message: Message)
    requires agent.Valid() && agent.activeRun && agent.mon.phase == Injecting(None)
    requires agent.mon.pending != [] && agent.mon.pending[0] == message
    modifies agent
    ensures agent.Valid() && agent.activeRun && Silent(old(agent.log), agent.log)
    ensures agent.mon == Deliver(old(agent.mon).(pending := old(agent.mon).pending[1..]), From(old(agent.mon).source),
                                 message, Injecting(None))
  {
    agent.ProcessEvents(MessageStart(message));
    agent.ProcessEvents(MessageEnd(message));
  }

  lemma OneMoreInjected(h: seq<Delivery>, source: Source, messages: seq<Message>, i: nat)
    requires i < |messages|
    ensures h + Injected(source, messages[..i]) + [Delivery(From(source), messages[i])]
         == h + Injected(source, messages[..i + 1])
  {
  }

  /** Emit held messages; the caller updates its own records. */
  method InjectAll(agent: Agent, messages: seq<Message>)
    requires agent.Valid() && agent.activeRun && agent.mon.phase == Injecting(None) && agent.mon.pending == messages
    modifies agent
    ensures agent.Valid() && agent.activeRun && Silent(old(agent.log), agent.log)
    ensures var m := old(agent.mon);
            agent.mon == m.(pending := [], history := m.history + Injected(m.source, messages))
  {
    ghost var m := agent.mon;
    assert m.history + Injected(m.source, messages[..0]) == m.history;
    for i := 0 to |messages|
      invariant agent.Valid() && agent.activeRun && Silent(old(agent.log), agent.log)
      invariant agent.mon == m.(pending := messages[i..], history := m.history + Injected(m.source, messages[..i]))
    {
      InjectOne(agent, messages[i]);
      OneMoreInjected(m.history, m.source, messages, i);
    }
    assert messages[..|messages|] == messages;
  }

  lemma ContentsConcat(h: seq<Delivery>, more: seq<Delivery>)
    ensures Contents(h + more) == Contents(h) + Contents(more)
  {
  }

  lemma ContentsOfToolDeliveries(results: seq<ToolResultMessage>)
    ensures Contents(ToolDeliveries(results)) == AsMessages(results)
  {
  }

  function AsMessages(results: seq<ToolResultMessage>): (r: seq<Message>)
    ensures |r| == |results|
    ensures forall i :: 0 <= i < |r| ==> r[i] == ToolResult(results[i])
  {
    seq(|results|, i requires 0 <= i < |results| => ToolResult(results[i]))
  }

  /** The calls of a reply run one after the other: it is configured so, or one of the called tools asks for it. */
  ghost predicate RunsInTurn(agent: Agent, calls: seq<ToolCall>) {
    agent.sequentialTools || exists i :: 0 <= i < |calls| && AsksToRunAlone(agent.tools, calls[i])
  }

  /** Whether the calls are to run one after the other. */
  method ChooseMode(agent: Agent, calls: seq<ToolCall>) returns (inTurn: bool)
    ensures inTurn <==> RunsInTurn(agent, calls)
  {
    forall i | 0 <= i < |calls|
      ensures AsksToRunAlone(agent.tools, calls[i])
         <==> FindTool(agent.tools, calls[i].name).Some? && FindTool(agent.tools, calls[i].name).value.sequential
    {
      AsksToRunAloneIs(agent.tools, calls[i]);
    }
    inTurn := agent.sequentialTools
              || exists i :: 0 <= i < |calls| && FindTool(agent.tools, calls[i].name).Some?
                             && FindTool(agent.tools, calls[i].name).value.sequential;
  }

  /** What the chosen executor emits: the calls' histories in turn, or those of the step machine under some schedule. */
  ghost predicate EmittedBy(job: Job, inTurn: bool, schedule: seq<Choice>, events: seq<AgentEvent>)
    requires job.Valid()
  {
    if inTurn then events == Untagged(SequentialTrace(job))
    else Complete(Execute(job, schedule)) && events == Untagged(Execute(job, schedule).trace)
  }

  /** The tool calls of a reply, by the executor they call for. */
  method ExecuteToolCalls(agent: Agent, reply: AssistantMessage, behave: nat -> Behaviour)
    returns (messages: seq<ToolResultMessage>, terminate: bool, ghost aborted: bool, ghost schedule: seq<Choice>,
             ghost events: seq<AgentEvent>)
    requires ToolPhase(agent, reply, NO_TOOLS) && !reply.Failed() && |ToolCalls(reply.content)| > 0
    modifies agent
    ensures agent.Valid() && agent.activeRun && Silent(old(agent.log), agent.log)
    ensures var fs := BatchOutcomes(agent.tools, reply, behave);
            && agent.mon == old(agent.mon).(phase := Responded(reply, DeliveredTally(fs, aborted)),
                                            history := old(agent.mon).history + ToolDeliveries(messages))
            && messages == ResultMessages(fs) && terminate == ShouldTerminate(fs)
            && 0 < |fs| <= |ToolCalls(reply.content)| && (|fs| == |ToolCalls(reply.content)| || aborted)
    ensures BatchTells(agent.tools, ToolCalls(reply.content), behave, messages, terminate)
    ensures (forall i :: 0 <= i < |ToolCalls(reply.content)| ==> !behave(i).abortedAfter) ==> !aborted
    ensures ToolTraffic(agent.log) == ToolTraffic(old(agent.log)) + events
    ensures var calls := ToolCalls(reply.content);
            EmittedBy(BatchJob(agent.tools, calls, behave), RunsInTurn(agent, calls), schedule, events)
  {
    var calls := ToolCalls(reply.content);
    ghost var job := BatchJob(agent.tools, calls, behave);
    var inTurn := ChooseMode(agent, calls);
    schedule := [];
    if inTurn {
      messages, terminate := ExecuteToolCallsSequential(agent, reply, calls, behave);
      events := Untagged(SequentialTrace(job));
    } else {
      messages, terminate, schedule := ExecuteToolCallsParallel(agent, reply, calls, behave);
      events := Untagged(Execute(job, schedule).trace);
    }
    aborted := CutByAbort(job);
  }

  /** The tool calls of a reply, with their results entered in both of the loop's records. */
  method RunTools(agent: Agent, context: AgentContext, newMessages: seq<Message>, reply: AssistantMessage,
                  behave: nat -> Behaviour)
    returns (newMessages': seq<Message>, results: seq<ToolResultMessage>, terminate: bool, ghost aborted: bool)
    requires InSync(agent, context, newMessages) && agent.mon.phase == Responded(reply, NO_TOOLS) && !reply.Failed()
    requires |ToolCalls(reply.content)| > 0
    modifies agent, context
    ensures InSync(agent, context, newMessages') && Silent(old(agent.log), agent.log)
    ensures var fs := BatchOutcomes(agent.tools, reply, behave);
            && results == ResultMessages(fs) && terminate == ShouldTerminate(fs) && 0 < |fs|
            && (|fs| == |ToolCalls(reply.content)| || aborted)
            && agent.mon == old(agent.mon).(phase := Responded(reply, DeliveredTally(fs, aborted)),
                                            history := old(agent.mon).history + ToolDeliveries(results))
  {
    ghost var schedule, events;
    results, terminate, aborted, schedule, events := ExecuteToolCalls(agent, reply, behave);
    newMessages' := EnterResults(agent, context, newMessages, old(agent.mon).history, results);
  }

  /** Enter tool results in both of the loop's records, after the transcript has received them. */
  method EnterResults(agent: Agent, context: AgentContext, newMessages: seq<Message>, ghost h: seq<Delivery>,
                      results: seq<ToolResultMessage>)
    returns (newMessages': seq<Message>)
    requires agent.Valid() && agent.activeRun && agent.mon.history == h + ToolDeliveries(results)
    requires agent.mon.runStart <= |h| && context.messages == Contents(h)
    requires newMessages == Contents(h)[agent.mon.runStart..]
    modifies context
    ensures InSync(agent, context, newMessages')
  {
    RecordsGrow(h, agent.mon.runStart, results);
    context.messages := context.messages + AsMessages(results);
    newMessages' := newMessages + AsMessages(results);
  }

  lemma RecordsGrow(h: seq<Delivery>, runStart: nat, results: seq<ToolResultMessage>)
    requires runStart <= |h|
    ensures Contents(h + ToolDeliveries(results)) == Contents(h) + AsMessages(results)
    ensures Contents(h + ToolDeliveries(results))[runStart..] == Contents(h)[runStart..] + AsMessages(results)
  {
    ContentsConcat(h, ToolDeliveries(results));
    ContentsOfToolDeliveries(results);
  }

  lemma TurnEndAllowed(m: Monitor, reply: AssistantMessage, fs: seq<Finalized>, aborted: bool)
    requires !reply.Failed() && m.phase == Responded(reply, DeliveredTally(fs, aborted))
    requires |fs| == |ToolCalls(reply.content)| || aborted
    ensures Advance(m, Emit(TurnEnd(Assistant(reply), ResultMessages(fs))))
         == Some(m.(phase := TurnOver(|fs| > 0 && !ShouldTerminate(fs))))
  {
  }

  lemma NothingToRun(tools: seq<Tool>, reply: AssistantMessage, behave: nat -> Behaviour, h: seq<Delivery>)
    requires ToolCalls(reply.content) == []
    ensures BatchOutcomes(tools, reply, behave) == [] && DeliveredTally([], false) == NO_TOOLS
    ensures ResultMessages([]) == [] && h + ToolDeliveries([]) == h
  {
  }

  /** From a reply to its turn_end; the run goes on exactly when the reply has calls and they do not all terminate. */
  method FinishTurn(agent: Agent, context: AgentContext, newMessages: seq<Message>, reply: AssistantMessage,
                    behave: nat -> Behaviour)
    returns (newMessages': seq<Message>, more: bool)
    requires InSync(agent, context, newMessages) && agent.mon.phase == Responded(reply, NO_TOOLS) && !reply.Failed()
    modifies agent, context
    ensures InSync(agent, context, newMessages') && Silent(old(agent.log), agent.log)
    ensures more <==> BatchGoesOn(agent.tools, reply, behave)
    ensures agent.mon
         == old(agent.mon).(phase := TurnOver(more),
                            history := old(agent.mon).history + ResultDeliveries(agent.tools, reply, behave))
  {
    var results: seq<ToolResultMessage> := [];
    more := false;
    newMessages' := newMessages;
    ghost var aborted := false;
    if |ToolCalls(reply.content)| > 0 {
      var terminate;
      newMessages', results, terminate, aborted := RunTools(agent, context, newMessages, reply, behave);
      more := !terminate;
    } else {
      NothingToRun(agent.tools, reply, behave, agent.mon.history);
    }
    TurnEndAllowed(agent.mon, reply, BatchOutcomes(agent.tools, reply, behave), aborted);
    agent.ProcessEvents(TurnEnd(Assistant(reply), results));
  }

  /** Where a turn leaves the loop, and how: what its script says decides. */
  ghost predicate TurnEnded(agent: Agent, context: AgentContext, newMessages: seq<Message>, turn: TurnScript,
                            outcome: TurnOutcome)
    reads agent, agent.steeringQueue, agent.followUpQueue, context
  {
    var p, more := agent.mon.phase, GoesOn(agent.tools, turn);
    match EndingOf(turn)
    case WentOn => outcome == TurnDone(more, false) && InSync(agent, context, newMessages) && p == Hooked(more)
    case Stopped => outcome == TurnDone(more, true) && InSync(agent, context, newMessages) && p == Hooked(more)
    case ReplyFailed => outcome == TurnFailed && InSync(agent, context, newMessages) && p == Closing
    case HookThrew => outcome == TurnThrew(ThrownBy(turn).value) && p == Hooked(more)
    case ThrewMidReply => outcome == TurnThrew(ThrownBy(turn).value) && p == Streaming
    case ThrewBeforeReply => outcome == TurnThrew(ThrownBy(turn).value) && p == Requested
  }

  lemma TurnEndedTells(agent: Agent, context: AgentContext, newMessages: seq<Message>, turn: TurnScript,
                       outcome: TurnOutcome)
    requires TurnEnded(agent, context, newMessages, turn, outcome)
    ensures TurnTells(agent.tools, turn, outcome)
  {
    GoesOnAsAsked(agent.tools, turn);
    if turn.stream.Throws() {
      assert CallThrows(turn.stream, turn.stream.Message());
    }
  }

  lemma ReplyRecorded(h: seq<Delivery>, runStart: nat, reply: AssistantMessage, more: seq<Delivery>)
    requires runStart <= |h|
    ensures Contents(h + [Delivery(Model, Assistant(reply))])[runStart..]
         == Contents(h)[runStart..] + [Assistant(reply)]
    ensures h + [Delivery(Model, Assistant(reply))] + more == h + ([Delivery(Model, Assistant(reply))] + more)
  {
    ContentsAppend(h, Delivery(Model, Assistant(reply)));
  }

  /** One pass of the inner loop, from the request to the hooks. */
  method RunTurn(agent: Agent, context: AgentContext, newMessages: seq<Message>, turn: TurnScript)
    returns (newMessages': seq<Message>, outcome: TurnOutcome)
    requires InSync(agent, context, newMessages) && Starts(turn.stream.events) <= 1
    requires agent.mon.phase == Injecting(None) && agent.mon.pending == [] && agent.mon.polledOnce
    modifies agent, context
    ensures agent.Valid() && agent.activeRun && Silent(old(agent.log), agent.log)
    ensures agent.mon == old(agent.mon).(phase := agent.mon.phase,
                                         history := old(agent.mon).history + TurnDeliveries(agent.tools, turn))
    ensures TurnEnded(agent, context, newMessages', turn, outcome)
  {
    ghost var m0 := agent.mon;
    newMessages' := newMessages;
    var reply := StreamAssistantResponse(agent, context, turn.stream);
    if reply.Throws? {
      assert m0.history + TurnDeliveries(agent.tools, turn) == m0.history;
      return newMessages', TurnThrew(reply.message);
    }
    newMessages' := newMessages' + [Assistant(reply.value)];
    ReplyRecorded(m0.history, m0.runStart, reply.value,
                  if reply.value.Failed() then []
                  else ResultDeliveries(agent.tools, reply.value, turn.behave));
    if reply.value.Failed() {
      agent.ProcessEvents(TurnEnd(Assistant(reply.value), []));
      return newMessages', TurnFailed;
    }
    newMessages', outcome := CompleteTurn(agent, context, newMessages', reply.value, turn);
  }

  lemma HooksAllowed(m: Monitor, more: bool, context: seq<Message>, newMessages: seq<Message>)
    requires m.phase == TurnOver(more) && m.runStart <= |m.history|
    requires context == Contents(m.history) && newMessages == Contents(m.history)[m.runStart..]
    ensures Advance(m, NextTurn(context, newMessages)) == Some(m.(phase := Hooked(more)))
  {
  }

  /** From a reply to the hooks, which are shown the records. */
  method ReachHooks(agent: Agent, context: AgentContext, newMessages: seq<Message>, reply: AssistantMessage,
                    behave: nat -> Behaviour)
    returns (newMessages': seq<Message>, more: bool)
    requires InSync(agent, context, newMessages) && agent.mon.phase == Responded(reply, NO_TOOLS) && !reply.Failed()
    modifies agent, context
    ensures InSync(agent, context, newMessages') && Silent(old(agent.log), agent.log)
    ensures more <==> BatchGoesOn(agent.tools, reply, behave)
    ensures agent.mon
         == old(agent.mon).(phase := Hooked(more),
                            history := old(agent.mon).history + ResultDeliveries(agent.tools, reply, behave))
  {
    newMessages', more := FinishTurn(agent, context, newMessages, reply, behave);
    HooksAllowed(agent.mon, more, context.messages, newMessages');
    agent.Note(NextTurn(context.messages, newMessages'));
  }

  /** The tools of a reply and the hooks after them. */
  method CompleteTurn(agent: Agent, context: AgentContext, newMessages: seq<Message>, reply: AssistantMessage,
                      turn: TurnScript)
    returns (newMessages': seq<Message>, outcome: TurnOutcome)
    requires InSync(agent, context, newMessages) && agent.mon.phase == Responded(reply, NO_TOOLS) && !reply.Failed()
    modifies agent, context
    ensures InSync(agent, context, newMessages') && Silent(old(agent.log), agent.log)
    ensures var more := BatchGoesOn(agent.tools, reply, turn.behave);
            && agent.mon
               == old(agent.mon).(phase := Hooked(more),
                                  history := old(agent.mon).history + ResultDeliveries(agent.tools, reply, turn.behave))
            && match turn.hooks
               case GoOn => outcome == TurnDone(more, false)
               case StopNow => outcome == TurnDone(more, true)
               case HookThrows(message) => outcome == TurnThrew(message)
  {
    var more;
    newMessages', more := ReachHooks(agent, context, newMessages, reply, turn.behave);
    match turn.hooks {
      case GoOn => outcome := TurnDone(more, false);
      case StopNow => outcome := TurnDone(more, true);
      case HookThrows(message) => outcome := TurnThrew(message);
    }
  }
}
