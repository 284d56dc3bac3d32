/**
 * The protocol an agent session must follow, as an acceptor over the log of everything the session does:
 * events emitted, queues polled, transcripts shown to the model and to the hooks. It says which logs are
 * allowed without saying how the loop is written; the loop is proved to produce only accepted logs, and what
 * the design promises is proved of every accepted log.
 */
module Protocol {
  import opened Common
  import opened AgentTypes

  datatype Source = Caller | Steering | FollowUp

  datatype Action =
    | Begin(source: Source, messages: seq<Message>)          // a run starts with these prompts
    | Emit(event: AgentEvent)
    | Enqueue(source: Source, message: Message)              // steer() or followUp()
    | Poll(source: Source, messages: seq<Message>)           // a queue is drained by the loop
    | Request(context: seq<Message>)                         // the transcript handed to the model call
    | NextTurn(context: seq<Message>, newMessages: seq<Message>) // what the hooks after a turn are shown
    | AbortSeen                                              // a tool loop finds the signal aborted
    | Fail                                                   // the loop throws
    | Settle                                                 // finishRun

  datatype Origin = Initial | From(source: Source) | Model | ToolRun | Failure

  datatype Delivery = Delivery(origin: Origin, message: Message)

  /** Progress of the tool calls of one reply. */
  datatype Tally = Tally(
    started: nat,
    running: multiset<string>,
    finished: multiset<ToolResultMessage>,
    results: seq<ToolResultMessage>,
    open: Option<ToolResultMessage>,
    continuing: bool,
    aborted: bool)

  datatype Phase =
    | Idle
    | Begun
    | Opening
    | Injecting(open: Option<Message>)
    | Requested
    | Streaming
    | Responded(reply: AssistantMessage, tally: Tally)
    | TurnOver(more: bool)
    | Hooked(more: bool)
    | Polled(more: bool)
    | Drained
    | Closing
    | Failing(stage: nat, failure: Option<Message>)
    | Finished

  /**
   * The current run: its turns and polls so far, whether something was started or thrown in the middle of a reply, and
   * whether the loop threw outside a turn.
   */
  datatype RunView = RunView(turns: nat, polls: nat, torn: bool, unframed: bool)

  /** `pending` are messages taken from `source` and not delivered yet; `runStart` is where this run's part begins. */
  datatype Monitor = Monitor(
    phase: Phase,
    history: seq<Delivery>,
    runStart: nat,
    pending: seq<Message>,
    source: Source,
    polledOnce: bool,
    run: RunView)

  const NEW_RUN := RunView(0, 0, false, false)

  const NO_TOOLS := Tally(0, multiset{}, multiset{}, [], None, false, false)

  function Contents(history: seq<Delivery>): (r: seq<Message>)
    ensures |r| == |history|
    ensures forall i :: 0 <= i < |r| ==> r[i] == history[i].message
  {
    seq(|history|, i requires 0 <= i < |history| => history[i].message)
  }

  lemma ContentsAppend(history: seq<Delivery>, d: Delivery)
    ensures Contents(history + [d]) == Contents(history) + [d.message]
  {
  }

  function Deliver(m: Monitor, origin: Origin, message: Message, phase: Phase): Monitor {
    m.(history := m.history + [Delivery(origin, message)], phase := phase)
  }

  predicate Answers(r: ToolResultMessage, call: ToolCall) {
    r.toolCallId == call.id && r.toolName == call.name
  }

  /** Tool traffic between a reply and the end of its turn. */
  function AdvanceTools(m: Monitor, a: Action): Option<Monitor>
    requires m.phase.Responded?
  {
    var reply, t := m.phase.reply, m.phase.tally;
    var calls := ToolCalls(reply.content);
    match a
    case Emit(ToolStart(id, name, arguments)) =>
      if !reply.Failed() && t.open.None? && !t.aborted && t.started < |calls|
         && calls[t.started] == ToolCall(id, name, arguments)
      then Some(m.(phase := Responded(reply, t.(started := t.started + 1, running := t.running + multiset{id}))))
      else None
    case Emit(ToolUpdate(id, _, _, _)) =>
      if t.open.None? && id in t.running then Some(m) else None
    case Emit(ToolEnd(id, name, output, isError)) =>
      if t.open.None? && id in t.running
      then Some(m.(phase := Responded(reply, t.(
          running := t.running - multiset{id},
          finished := t.finished + multiset{ToolResultMessage(id, name, output.content, output.details, isError)},
          continuing := t.continuing || output.terminate != Some(true)))))
      else None
    case AbortSeen =>
      if t.started > 0 then Some(m.(phase := Responded(reply, t.(aborted := true)))) else None
    case Emit(MessageStart(ToolResult(r))) =>
      if t.open.None? && t.running == multiset{} && r in t.finished
         && |t.results| < t.started <= |calls| && Answers(r, calls[|t.results|])
      then Some(m.(phase := Responded(reply, t.(open := Some(r)))))
      else None
    case Emit(MessageEnd(ToolResult(r))) =>
      if t.open == Some(r)
      then Some(Deliver(m, ToolRun, ToolResult(r), Responded(reply, t.(
          open := None, finished := t.finished - multiset{r}, results := t.results + [r]))))
      else None
    case Emit(TurnEnd(message, toolResults)) =>
      if message == Assistant(reply) && toolResults == t.results && t.open.None?
         && t.running == multiset{} && t.finished == multiset{} && |t.results| == t.started
         && (reply.Failed() || t.started == |calls| || t.aborted)
      then Some(m.(phase := if reply.Failed() then Closing else TurnOver(t.continuing)))
      else None
    case _ => None
  }

  function AdvanceFailing(m: Monitor, a: Action): Option<Monitor>
    requires m.phase.Failing?
  {
    var f := m.phase.failure;
    match a
    case Emit(MessageStart(Assistant(message))) =>
      if m.phase.stage == 0 then Some(m.(phase := Failing(1, Some(Assistant(message))))) else None
    case Emit(MessageEnd(message)) =>
      if m.phase.stage == 1 && f == Some(message) then Some(Deliver(m, Failure, message, Failing(2, f))) else None
    case Emit(TurnEnd(message, toolResults)) =>
      if m.phase.stage == 2 && f == Some(message) && toolResults == [] then Some(m.(phase := Failing(3, f))) else None
    case Emit(AgentEnd(messages)) =>
      if m.phase.stage == 3 && f.Some? && messages == [f.value] then Some(m.(phase := Finished)) else None
    case _ => None
  }

  function AdvanceInjecting(m: Monitor, a: Action): Option<Monitor>
    requires m.phase.Injecting?
  {
    match a
    case Emit(MessageStart(message)) =>
      if m.phase.open.None? && m.pending != [] && m.pending[0] == message
      then Some(m.(phase := Injecting(Some(message)))) else None
    case Emit(MessageEnd(message)) =>
      if m.phase.open == Some(message) && m.pending != [] && m.pending[0] == message
      then Some(Deliver(m.(pending := m.pending[1..]), From(m.source), message, Injecting(None))) else None
    case Poll(source, messages) =>
      // The poll before the first response; a run begun with a steering message must not take another one.
      if m.phase.open.None? && m.pending == [] && !m.polledOnce && source == Steering
         && (m.source == Steering ==> messages == [])
      then Some(m.(pending := messages, source := Steering, polledOnce := true, run := OncePolled(m.run))) else None
    case Request(context) =>
      if m.phase.open.None? && m.pending == [] && m.polledOnce && context == Contents(m.history)
      then Some(m.(phase := Requested)) else None
    case _ => None
  }

  predicate MayEnd(m: Monitor) {
    m.phase.Closing? || m.phase.Hooked? || (m.phase.Drained? && m.pending == [])
  }

  function OncePolled(run: RunView): RunView {
    run.(polls := run.polls + 1)
  }

  function AfterTurnStart(m: Monitor): Monitor {
    m.(phase := Injecting(None), run := m.run.(turns := m.run.turns + 1))
  }

  /** Before the first turn of a run, or between two turns. */
  predicate OutsideTurn(p: Phase) {
    p.Begun? || p.Hooked?
  }

  function AfterFail(m: Monitor): Monitor {
    m.(phase := Failing(0, None),
       run := m.run.(torn := m.run.torn || m.phase.Streaming?, unframed := OutsideTurn(m.phase)))
  }

  /** The next state, or None when the action is not allowed. */
  function Advance(m: Monitor, a: Action): Option<Monitor> {
    if a.Enqueue? then Some(m)
    else if a.Fail? then
      if m.pending == [] && (m.phase.Begun? || m.phase.Requested? || m.phase.Streaming? || m.phase.Hooked?)
      then Some(AfterFail(m)) else None
    else if a.Emit? && a.event.AgentEnd? && !m.phase.Failing? then
      if MayEnd(m) && m.runStart <= |m.history| && a.event.messages == Contents(m.history)[m.runStart..]
      then Some(m.(phase := Finished)) else None
    else match m.phase
      case Idle =>
        if a.Begin? then Some(AfterBegin(m, a.source, a.messages)) else None
      case Begun => if a == Emit(AgentStart) then Some(m.(phase := Opening)) else None
      case Opening => if a == Emit(TurnStart) then Some(AfterTurnStart(m)) else None
      case Injecting(_) => AdvanceInjecting(m, a)
      case Requested =>
        if a.Emit? && a.event.MessageStart? && a.event.message.Assistant? then Some(m.(phase := Streaming)) else None
      case Streaming =>
        if a.Emit? && a.event.MessageUpdate? then Some(m)
        else if a.Emit? && a.event.MessageStart? && a.event.message.Assistant? then
          Some(m.(run := m.run.(torn := true)))
        else if a.Emit? && a.event.MessageEnd? && a.event.message.Assistant? then
          Some(Deliver(m, Model, a.event.message, Responded(a.event.message.assistant, NO_TOOLS)))
        else None
      case Responded(_, _) => AdvanceTools(m, a)
      case TurnOver(more) =>
        if a.NextTurn? && m.runStart <= |m.history| && a.context == Contents(m.history)
           && a.newMessages == Contents(m.history)[m.runStart..]
        then Some(m.(phase := Hooked(more))) else None
      case Hooked(more) =>
        if a.Poll? && a.source == Steering && m.pending == []
        then Some(m.(phase := Polled(more), pending := a.messages, source := Steering, run := OncePolled(m.run)))
        else None
      case Polled(more) =>
        if a == Emit(TurnStart) && (more || m.pending != []) then Some(AfterTurnStart(m))
        else if a.Poll? && a.source == FollowUp && !more && m.pending == []
        then Some(m.(phase := Drained, pending := a.messages, source := FollowUp, run := OncePolled(m.run))) else None
      case Drained =>
        if a == Emit(TurnStart) && m.pending != [] then Some(AfterTurnStart(m)) else None
      case Failing(_, _) => AdvanceFailing(m, a)
      case Finished => if a.Settle? then Some(m.(phase := Idle)) else None
      case Closing => None
  }

  /** A steering poll is due: before the first response of a run, or after a turn. */
  predicate SteeringDue(m: Monitor, skip: bool) {
    && m.pending == []
    && (|| m.phase.Hooked?
        || (m.phase == Injecting(None) && !m.polledOnce && (m.source == Steering ==> skip)))
  }

  function AfterPoll(m: Monitor, source: Source, messages: seq<Message>): Monitor {
    m.(pending := messages, source := source,
       run := OncePolled(m.run),
       polledOnce := m.polledOnce || m.phase.Injecting?,
       phase := match m.phase
                case Hooked(more) => Polled(more)
                case Polled(_) => Drained
                case p => p)
  }

  /** The queues are polled exactly where the loop polls them, and a skipped first poll takes nothing. */
  lemma PollAllowed(m: Monitor, source: Source, messages: seq<Message>)
    ensures Advance(m, Poll(source, messages)).Some?
       <==> if source == FollowUp then m.phase == Polled(false) && m.pending == []
            else source == Steering && SteeringDue(m, messages == [])
    ensures Advance(m, Poll(source, messages)).Some? ==>
      Advance(m, Poll(source, messages)).value == AfterPoll(m, source, messages)
  {
  }

  function AfterBegin(m: Monitor, source: Source, prompts: seq<Message>): Monitor {
    m.(phase := Begun, runStart := |m.history|, pending := prompts, source := source, polledOnce := false,
       run := NEW_RUN)
  }

  function AsHistory(initial: seq<Message>): (r: seq<Delivery>)
    ensures Contents(r) == initial
  {
    seq(|initial|, i requires 0 <= i < |initial| => Delivery(Initial, initial[i]))
  }

  function Fresh(initial: seq<Message>): Monitor {
    Monitor(Idle, AsHistory(initial), |initial|, [], Caller, false, NEW_RUN)
  }

  /** The state after a log that starts from the given transcript; None once an action was not allowed. */
  function Track(initial: seq<Message>, log: seq<Action>): Option<Monitor> {
    if log == [] then Some(Fresh(initial))
    else
      var before := Track(initial, log[..|log| - 1]);
      if before.None? then None else Advance(before.value, log[|log| - 1])
  }

  lemma TrackStep(initial: seq<Message>, log: seq<Action>, a: Action)
    requires Track(initial, log).Some?
    ensures Track(initial, log + [a]) == Advance(Track(initial, log).value, a)
  {
    assert (log + [a])[..|log|] == log;
  }

  /** Everything proved of accepted logs therefore holds at every moment of a session, not only at its end. */
  lemma {:induction false} PrefixesAccepted(initial: seq<Message>, log: seq<Action>, k: nat)
    requires k <= |log| && Track(initial, log).Some?
    ensures Track(initial, log[..k]).Some?
    decreases |log|
  {
    if k == |log| {
      assert log[..k] == log;
    } else {
      PrefixesAccepted(initial, log[..|log| - 1], k);
      assert log[..|log| - 1][..k] == log[..k];
    }
  }
}
