/** What the acceptance of a log means: the promises of the agent's design, proved of every accepted log. */
module ProtocolFacts {
  import opened Common
  import opened AgentTypes
  import opened Protocol

  // ----- The agent's own state, reduced from the same log -----

  datatype AgentState = AgentState(
    messages: seq<Message>,
    isStreaming: bool,
    streamingMessage: Option<Message>,
    pendingToolCalls: set<string>,
    errorMessage: Option<string>)

  function ReduceEvent(s: AgentState, e: AgentEvent): AgentState {
    match e
    case MessageStart(m) => s.(streamingMessage := Some(m))
    case MessageUpdate(m) => s.(streamingMessage := Some(m))
    case MessageEnd(m) => s.(streamingMessage := None, messages := s.messages + [m])
    case ToolStart(id, _, _) => s.(pendingToolCalls := s.pendingToolCalls + {id})
    case ToolEnd(id, _, _, _) => s.(pendingToolCalls := s.pendingToolCalls - {id})
    case TurnEnd(Assistant(a), _) =>
      if a.errorMessage.Some? && a.errorMessage.value != "" then s.(errorMessage := a.errorMessage) else s
    case AgentEnd(_) => s.(streamingMessage := None)
    case _ => s
  }

  function Reduce(s: AgentState, a: Action): AgentState {
    match a
    case Begin(_, _) => s.(isStreaming := true, streamingMessage := None, errorMessage := None)
    case Emit(e) => ReduceEvent(s, e)
    case Settle => s.(isStreaming := false, streamingMessage := None, pendingToolCalls := {})
    case _ => s
  }

  function Replay(initial: seq<Message>, log: seq<Action>): AgentState {
    if log == [] then AgentState(initial, false, None, {}, None)
    else Reduce(Replay(initial, log[..|log| - 1]), log[|log| - 1])
  }

  lemma ReplayStep(initial: seq<Message>, log: seq<Action>, a: Action)
    ensures Replay(initial, log + [a]) == Reduce(Replay(initial, log), a)
  {
    assert (log + [a])[..|log|] == log;
  }

  function CallIds(calls: seq<ToolCall>): multiset<string> {
    if calls == [] then multiset{} else CallIds(calls[..|calls| - 1]) + multiset{calls[|calls| - 1].id}
  }

  ghost predicate DistinctIds(calls: seq<ToolCall>) {
    forall i, j :: 0 <= i < j < |calls| ==> calls[i].id != calls[j].id
  }

  lemma IdIsOfSomeCall(calls: seq<ToolCall>, id: string)
    ensures id in CallIds(calls) ==> exists i :: 0 <= i < |calls| && calls[i].id == id
  {
    if calls != [] {
      IdIsOfSomeCall(calls[..|calls| - 1], id);
      if id == calls[|calls| - 1].id {
        assert calls[|calls| - 1].id == id;
      }
    }
  }

  lemma {:induction false} DistinctIdsCountOnce(calls: seq<ToolCall>, id: string)
    requires DistinctIds(calls)
    ensures CallIds(calls)[id] <= 1
  {
    if calls != [] {
      var front := calls[..|calls| - 1];
      DistinctIdsCountOnce(front, id);
      IdIsOfSomeCall(front, id);
    }
  }

  function Ids(running: multiset<string>): set<string> {
    set id | id in running
  }

  /** The pending set of a batch of which `started` calls are started and `running` have not ended. */
  ghost predicate PendingAgrees(pending: set<string>, calls: seq<ToolCall>, started: nat, running: multiset<string>) {
    && started <= |calls|
    && running <= CallIds(calls[..started])
    && pending <= Ids(running)
    && (DistinctIds(calls) ==> pending == Ids(running))
  }

  /** The quantifier keeps it folded: it is looked into only where `PendingAgrees` is mentioned. */
  ghost predicate ToolsAgree(s: AgentState, reply: AssistantMessage, t: Tally) {
    var pending, calls := s.pendingToolCalls, ToolCalls(reply.content);
    forall n: nat {:trigger PendingAgrees(pending, calls, n, t.running)} :: n == t.started ==>
      PendingAgrees(pending, calls, n, t.running)
  }

  /** The agent's state and the acceptor's view of the log say the same thing. */
  ghost predicate Agrees(s: AgentState, m: Monitor) {
    && s.messages == Contents(m.history)
    && m.runStart <= |m.history|
    && (s.isStreaming <==> !m.phase.Idle?)
    && (if m.phase.Responded? then ToolsAgree(s, m.phase.reply, m.phase.tally) else s.pendingToolCalls == {})
    && match m.phase
       case Injecting(open) => s.streamingMessage == open
       case Streaming => s.streamingMessage.Some? 
       case Responded(_, t) =>
         s.streamingMessage == if t.open.Some? then Some(ToolResult(t.open.value)) else None
       case Failing(stage, failure) => stage > 0 ==> s.streamingMessage == if stage == 1 then failure else None
       case _ => s.streamingMessage == None
  }

  lemma StartAgrees(pending: set<string>, calls: seq<ToolCall>, started: nat, running: multiset<string>)
    requires PendingAgrees(pending, calls, started, running) && started < |calls|
    ensures var id := calls[started].id; PendingAgrees(pending + {id}, calls, started + 1, running + multiset{id})
  {
    assert calls[..started + 1][..started] == calls[..started];
  }

  lemma EndAgrees(pending: set<string>, calls: seq<ToolCall>, started: nat, running: multiset<string>, id: string)
    requires PendingAgrees(pending, calls, started, running) && id in running
    ensures PendingAgrees(pending - {id}, calls, started, running - multiset{id})
  {
    if DistinctIds(calls) {
      DistinctIdsCountOnce(calls[..started], id);
    }
  }

  lemma ToolStartEventAgrees(s: AgentState, m: Monitor, e: AgentEvent)
    requires e.ToolStart? && Agrees(s, m) && m.phase.Responded? && AdvanceTools(m, Emit(e)).Some?
    ensures Agrees(ReduceEvent(s, e), AdvanceTools(m, Emit(e)).value)
  {
    var calls, t := ToolCalls(m.phase.reply.content), m.phase.tally;
    StartAgrees(s.pendingToolCalls, calls, t.started, t.running);
  }

  lemma ToolEndEventAgrees(s: AgentState, m: Monitor, e: AgentEvent)
    requires e.ToolEnd? && Agrees(s, m) && m.phase.Responded? && AdvanceTools(m, Emit(e)).Some?
    ensures Agrees(ReduceEvent(s, e), AdvanceTools(m, Emit(e)).value)
  {
    var calls, t := ToolCalls(m.phase.reply.content), m.phase.tally;
    EndAgrees(s.pendingToolCalls, calls, t.started, t.running, e.id);
  }

  /** Result messages do not touch what the agent tracks of the tool calls. */
  lemma ResultEventKeepsTools(s: AgentState, m: Monitor, e: AgentEvent)
    requires e.MessageStart? || e.MessageEnd?
    requires m.phase.Responded? && ToolsAgree(s, m.phase.reply, m.phase.tally) && AdvanceTools(m, Emit(e)).Some?
    ensures var p := AdvanceTools(m, Emit(e)).value.phase;
            p.Responded? && ToolsAgree(ReduceEvent(s, e), p.reply, p.tally)
  {
    var t, t' := m.phase.tally, AdvanceTools(m, Emit(e)).value.phase.tally;
    assert t'.started == t.started && t'.running == t.running;
  }

  lemma NothingPending(s: AgentState, reply: AssistantMessage, t: Tally)
    requires ToolsAgree(s, reply, t) && t.running == multiset{}
    ensures s.pendingToolCalls == {}
  {
    assert PendingAgrees(s.pendingToolCalls, ToolCalls(reply.content), t.started, t.running);
    assert Ids(t.running) == {};
  }

  lemma ResultMessageAgrees(s: AgentState, m: Monitor, e: AgentEvent)
    requires e.MessageStart? || e.MessageEnd?
    requires Agrees(s, m) && m.phase.Responded? && AdvanceTools(m, Emit(e)).Some?
    ensures Agrees(ReduceEvent(s, e), AdvanceTools(m, Emit(e)).value)
  {
    ResultEventKeepsTools(s, m, e);
    if e.MessageEnd? {
      ContentsAppend(m.history, Delivery(ToolRun, e.message));
    }
  }

  lemma TurnEndAgrees(s: AgentState, m: Monitor, e: AgentEvent)
    requires e.TurnEnd?
    requires Agrees(s, m) && m.phase.Responded? && AdvanceTools(m, Emit(e)).Some?
    ensures Agrees(ReduceEvent(s, e), AdvanceTools(m, Emit(e)).value)
  {
    NothingPending(s, m.phase.reply, m.phase.tally);
  }

  lemma AdvanceToolsAgrees(s: AgentState, m: Monitor, a: Action)
    requires Agrees(s, m) && m.phase.Responded? && AdvanceTools(m, a).Some?
    ensures Agrees(Reduce(s, a), AdvanceTools(m, a).value)
  {
    if a.Emit? {
      if a.event.MessageStart? || a.event.MessageEnd? {
        ResultMessageAgrees(s, m, a.event);
      } else if a.event.TurnEnd? {
        TurnEndAgrees(s, m, a.event);
      } else if a.event.ToolStart? {
        ToolStartEventAgrees(s, m, a.event);
      } else if a.event.ToolEnd? {
        ToolEndEventAgrees(s, m, a.event);
      }
    }
  }

  lemma AdvanceInjectingAgrees(s: AgentState, m: Monitor, a: Action)
    requires Agrees(s, m) && m.phase.Injecting? && AdvanceInjecting(m, a).Some?
    ensures Agrees(Reduce(s, a), AdvanceInjecting(m, a).value)
  {
    if a.Emit? && a.event.MessageEnd? {
      ContentsAppend(m.history, Delivery(From(m.source), a.event.message));
    }
  }

  lemma AdvanceFailingAgrees(s: AgentState, m: Monitor, a: Action)
    requires Agrees(s, m) && m.phase.Failing? && AdvanceFailing(m, a).Some?
    ensures Agrees(Reduce(s, a), AdvanceFailing(m, a).value)
  {
    if a.Emit? && a.event.MessageEnd? {
      ContentsAppend(m.history, Delivery(Failure, a.event.message));
    }
  }

  lemma AdvanceAgrees(s: AgentState, m: Monitor, a: Action)
    requires Agrees(s, m) && Advance(m, a).Some?
    ensures Agrees(Reduce(s, a), Advance(m, a).value)
  {
    if a.Enqueue? || a.Fail? || (a.Emit? && a.event.AgentEnd? && !m.phase.Failing?) {
    } else if m.phase.Responded? {
      AdvanceToolsAgrees(s, m, a);
    } else if m.phase.Injecting? {
      AdvanceInjectingAgrees(s, m, a);
    } else if m.phase.Failing? {
      AdvanceFailingAgrees(s, m, a);
    } else if m.phase.Streaming? && a.Emit? && a.event.MessageEnd? {
      ContentsAppend(m.history, Delivery(Model, a.event.message));
    }
  }

  /**
   * Transcript agreement at every moment of every session: the transcript the agent reduced from its events,
   * its streaming message, and its set of pending tool calls are the ones the log implies. With distinct ids
   * the pending set is exactly the calls started and not ended; outside a tool batch it is empty.
   */
  lemma {:induction false} AgentAgrees(initial: seq<Message>, log: seq<Action>)
    requires Track(initial, log).Some?
    ensures Agrees(Replay(initial, log), Track(initial, log).value)
    decreases |log|
  {
    if log != [] {
      var front := log[..|log| - 1];
      AgentAgrees(initial, front);
      AdvanceAgrees(Replay(initial, front), Track(initial, front).value, log[|log| - 1]);
    }
  }

  /** The message on display: the last one started or updated, until it or the run ends. */
  function Shown(log: seq<Action>): Option<Message> {
    if log == [] then None
    else match log[|log| - 1]
      case Begin(_, _) => None
      case Settle => None
      case Emit(MessageStart(m)) => Some(m)
      case Emit(MessageUpdate(m)) => Some(m)
      case Emit(MessageEnd(_)) => None
      case Emit(AgentEnd(_)) => None
      case _ => Shown(log[..|log| - 1])
  }

  /** The last error a turn of this run ended with. */
  function LastError(log: seq<Action>): Option<string> {
    if log == [] then None
    else match log[|log| - 1]
      case Begin(_, _) => None
      case Emit(TurnEnd(Assistant(a), _)) =>
        if a.errorMessage.Some? && |a.errorMessage.value| > 0 then a.errorMessage else LastError(log[..|log| - 1])
      case _ => LastError(log[..|log| - 1])
  }

  /** What the agent displays can be read off its log. */
  lemma {:induction false} DisplayAgrees(initial: seq<Message>, log: seq<Action>)
    ensures Replay(initial, log).streamingMessage == Shown(log)
    ensures Replay(initial, log).errorMessage == LastError(log)
    decreases |log|
  {
    if log != [] {
      DisplayAgrees(initial, log[..|log| - 1]);
    }
  }

  // ----- What one step does to the transcript and to the held messages -----

  function DeliveryOrigin(m: Monitor): Origin {
    match m.phase
    case Injecting(_) => From(m.source)
    case Streaming => Model
    case Responded(_, _) => ToolRun
    case _ => Failure
  }

  predicate MayHold(p: Phase) {
    p.Begun? || p.Opening? || p.Injecting? || p.Polled? || p.Drained?
  }

  ghost predicate Summary(m: Monitor, a: Action, m': Monitor) {
    && m'.history == m.history + (if a.Emit? && a.event.MessageEnd?
                                  then [Delivery(DeliveryOrigin(m), a.event.message)] else [])
    && m'.runStart == (if a.Begin? then |m.history| else m.runStart)
    && (a.Poll? ==> m.pending == [])
    && (if a.Poll? || a.Begin? then m'.pending == a.messages && m'.source == a.source
        else
          && m'.source == m.source
          && if a.Emit? && a.event.MessageEnd? && m.phase.Injecting?
             then m.pending == [a.event.message] + m'.pending
             else m'.pending == m.pending)
  }

  lemma ToolsSummary(m: Monitor, a: Action)
    requires m.phase.Responded? && AdvanceTools(m, a).Some?
    ensures Summary(m, a, AdvanceTools(m, a).value) && !MayHold(AdvanceTools(m, a).value.phase)
  {
    if !(a.Emit? && a.event.MessageEnd?) {
      assert m.history + [] == m.history;
    }
  }

  lemma AdvanceSummary(m: Monitor, a: Action)
    requires Advance(m, a).Some?
    ensures Summary(m, a, Advance(m, a).value)
  {
    if m.phase.Responded? && !a.Enqueue? && !a.Fail? && !(a.Emit? && a.event.AgentEnd?) {
      ToolsSummary(m, a);
    } else if !(a.Emit? && a.event.MessageEnd?) {
      assert m.history + [] == m.history;
    }
  }

  /** Only these phases ever hold messages that were taken and not delivered. */
  lemma HoldingStep(m: Monitor, a: Action)
    requires Advance(m, a).Some? && (m.pending != [] ==> MayHold(m.phase))
    ensures var m' := Advance(m, a).value; m'.pending != [] ==> MayHold(m'.phase)
  {
    AdvanceSummary(m, a);
  }

  // ----- The loop's record of the run -----

  /** The message_end payloads since the run began. */
  function Payloads(log: seq<Action>): seq<Message> {
    if log == [] then []
    else match log[|log| - 1]
      case Begin(_, _) => []
      case Emit(MessageEnd(m)) => Payloads(log[..|log| - 1]) + [m]
      case _ => Payloads(log[..|log| - 1])
  }

  lemma PayloadStep(m: Monitor, a: Action, m': Monitor)
    requires m.runStart <= |m.history| && Summary(m, a, m')
    ensures m'.runStart <= |m'.history|
    ensures Contents(m'.history)[m'.runStart..]
         == (if a.Begin? then [] else Contents(m.history)[m.runStart..])
            + (if a.Emit? && a.event.MessageEnd? then [a.event.message] else [])
  {
  }

  lemma {:induction false} RunIsItsPayloads(initial: seq<Message>, log: seq<Action>)
    requires Track(initial, log).Some?
    ensures var m := Track(initial, log).value;
            m.runStart <= |m.history| && Contents(m.history)[m.runStart..] == Payloads(log)
    decreases |log|
  {
    if log != [] {
      var front, a := log[..|log| - 1], log[|log| - 1];
      RunIsItsPayloads(initial, front);
      AdvanceSummary(Track(initial, front).value, a);
      PayloadStep(Track(initial, front).value, a, Track(initial, log).value);
    }
  }

  /** What an action that shows a record to the outside may show, given the state just before it. */
  ghost predicate ShowsAgreement(a: Action, s: AgentState, payloads: seq<Message>, m: Monitor)
    requires |payloads| <= |s.messages|
  {
    && (a.Request? ==> a.context == s.messages)
    && (a.NextTurn? ==>
         && a.context == s.messages
         && a.newMessages == payloads
         && payloads == s.messages[|s.messages| - |payloads|..]
         && s.pendingToolCalls == {})
    && (a.Emit? && a.event.AgentEnd? ==>
         if m.phase.Failing? then payloads != [] && a.event.messages == payloads[|payloads| - 1..]
         else a.event.messages == payloads)
  }

  /** Once the failure message has ended, it is the last message of the transcript, and of this run. */
  ghost predicate FailureEnds(m: Monitor) {
    m.phase.Failing? && m.phase.stage >= 2 ==>
      && m.runStart < |m.history| && m.phase.failure == Some(m.history[|m.history| - 1].message)
  }

  lemma FailureStep(m: Monitor, a: Action)
    requires FailureEnds(m) && m.runStart <= |m.history| && Advance(m, a).Some?
    ensures FailureEnds(Advance(m, a).value)
  {
  }

  lemma {:induction false} FailureIsLast(initial: seq<Message>, log: seq<Action>)
    requires Track(initial, log).Some?
    ensures FailureEnds(Track(initial, log).value)
    decreases |log|
  {
    if log != [] {
      var front := log[..|log| - 1];
      FailureIsLast(initial, front);
      AgentAgrees(initial, front);
      FailureStep(Track(initial, front).value, log[|log| - 1]);
    }
  }

  lemma AllowedShowsAgreement(a: Action, s: AgentState, payloads: seq<Message>, m: Monitor)
    requires Agrees(s, m) && payloads == Contents(m.history)[m.runStart..] && Advance(m, a).Some? && FailureEnds(m)
    ensures |payloads| <= |s.messages| && ShowsAgreement(a, s, payloads, m)
  {
    assert |s.messages| - |payloads| == m.runStart;
  }

  /**
   * Whenever the loop shows its records to the hooks after a turn, to the model, or in agent_end, they agree: the
   * loop context is the agent's transcript, `newMessages` is exactly this run's message_end payloads, and these
   * payloads are the end of the transcript. The agent_end of a failed run carries the last of them, the failure.
   */
  lemma RecordsAgree(initial: seq<Message>, log: seq<Action>, k: nat)
    requires k < |log| && Track(initial, log).Some?
    ensures Track(initial, log[..k]).Some? && |Payloads(log[..k])| <= |Replay(initial, log[..k]).messages|
    ensures ShowsAgreement(log[k], Replay(initial, log[..k]), Payloads(log[..k]), Track(initial, log[..k]).value)
  {
    PrefixesAccepted(initial, log, k);
    PrefixesAccepted(initial, log, k + 1);
    assert log[..k + 1][..k] == log[..k];
    AgentAgrees(initial, log[..k]);
    RunIsItsPayloads(initial, log[..k]);
    FailureIsLast(initial, log[..k]);
    AllowedShowsAgreement(log[k], Replay(initial, log[..k]), Payloads(log[..k]), Track(initial, log[..k]).value);
  }

  // ----- Queues -----

  /** Everything ever taken from a queue, by a poll or to start a run. */
  function Taken(s: Source, log: seq<Action>): seq<Message> {
    if log == [] then []
    else
      var a := log[|log| - 1];
      Taken(s, log[..|log| - 1]) + (if (a.Poll? || a.Begin?) && a.source == s then a.messages else [])
  }

  function Enqueued(s: Source, log: seq<Action>): seq<Message> {
    if log == [] then []
    else
      var a := log[|log| - 1];
      Enqueued(s, log[..|log| - 1]) + (if a.Enqueue? && a.source == s then [a.message] else [])
  }

  /** The log has grown, and nothing was enqueued meanwhile. */
  ghost predicate Silent(log: seq<Action>, log': seq<Action>) {
    && log <= log'
    && Enqueued(Steering, log') == Enqueued(Steering, log)
    && Enqueued(FollowUp, log') == Enqueued(FollowUp, log)
  }

  /** The log has grown, and these messages were enqueued meanwhile, in these orders. */
  ghost predicate Received(log: seq<Action>, log': seq<Action>, steered: seq<Message>, followed: seq<Message>) {
    && log <= log'
    && Enqueued(Steering, log') == Enqueued(Steering, log) + steered
    && Enqueued(FollowUp, log') == Enqueued(FollowUp, log) + followed
  }

  lemma EnqueuedStep(s: Source, log: seq<Action>, a: Action)
    ensures Enqueued(s, log + [a]) == Enqueued(s, log) + (if a.Enqueue? && a.source == s then [a.message] else [])
  {
    assert (log + [a])[..|log|] == log;
  }

  lemma SilentStep(log: seq<Action>, a: Action)
    requires !a.Enqueue?
    ensures Silent(log, log + [a])
  {
    EnqueuedStep(Steering, log, a);
    EnqueuedStep(FollowUp, log, a);
  }

  function DeliveredFrom(s: Source, history: seq<Delivery>): seq<Message> {
    if history == [] then []
    else
      var d := history[|history| - 1];
      DeliveredFrom(s, history[..|history| - 1]) + (if d.origin == From(s) then [d.message] else [])
  }

  lemma DeliveredFromAppend(s: Source, history: seq<Delivery>, d: Delivery)
    ensures DeliveredFrom(s, history + [d])
         == DeliveredFrom(s, history) + (if d.origin == From(s) then [d.message] else [])
  {
    assert (history + [d])[..|history|] == history;
  }

  lemma {:induction false} NothingDeliveredInitially(s: Source, initial: seq<Message>)
    ensures DeliveredFrom(s, AsHistory(initial)) == []
  {
    if initial != [] {
      var front := initial[..|initial| - 1];
      NothingDeliveredInitially(s, front);
      assert AsHistory(initial)[..|initial| - 1] == AsHistory(front);
    }
  }

  function Waiting(s: Source, m: Monitor): seq<Message> {
    if m.source == s then m.pending else []
  }

  lemma TakeStep(s: Source, m: Monitor, a: Action, m': Monitor)
    requires Summary(m, a, m') && (a.Begin? ==> m.pending == [])
    ensures DeliveredFrom(s, m'.history) + Waiting(s, m')
         == DeliveredFrom(s, m.history) + Waiting(s, m)
            + (if (a.Poll? || a.Begin?) && a.source == s then a.messages else [])
  {
    if a.Emit? && a.event.MessageEnd? {
      DeliveredFromAppend(s, m.history, Delivery(DeliveryOrigin(m), a.event.message));
    } else {
      assert m'.history == m.history;
    }
  }

  /**
   * Queue conservation: what was taken from a queue is, in the order it was taken, exactly what the transcript
   * received from that queue, followed by what the loop still holds; between runs the loop holds nothing.
   */
  lemma {:induction false} TakenIsDelivered(s: Source, initial: seq<Message>, log: seq<Action>)
    requires Track(initial, log).Some?
    ensures var m := Track(initial, log).value;
            && Taken(s, log) == DeliveredFrom(s, m.history) + Waiting(s, m)
            && (m.pending != [] ==> MayHold(m.phase))
    decreases |log|
  {
    if log == [] {
      NothingDeliveredInitially(s, initial);
    } else {
      var front := log[..|log| - 1];
      TakenIsDelivered(s, initial, front);
      var m, a := Track(initial, front).value, log[|log| - 1];
      AdvanceSummary(m, a);
      HoldingStep(m, a);
      TakeStep(s, m, a, Track(initial, log).value);
    }
  }

  // ----- One-at-a-time steering -----

  /** Every time the queue was tapped it gave at most one message. */
  ghost predicate SingleTakes(s: Source, log: seq<Action>) {
    forall k :: 0 <= k < |log| && (log[k].Poll? || log[k].Begin?) && log[k].source == s ==> |log[k].messages| <= 1
  }

  /** Steering messages delivered since the model last replied. */
  function SteersSinceReply(history: seq<Delivery>): nat {
    if history == [] then 0
    else
      var d := history[|history| - 1];
      if d.origin == Model || d.origin == Failure then 0
      else SteersSinceReply(history[..|history| - 1]) + (if d.origin == From(Steering) then 1 else 0)
  }

  lemma SteersAppend(history: seq<Delivery>, d: Delivery)
    ensures SteersSinceReply(history + [d])
         == if d.origin == Model || d.origin == Failure then 0
            else SteersSinceReply(history) + (if d.origin == From(Steering) then 1 else 0)
  {
    assert (history + [d])[..|history|] == history;
  }

  ghost predicate Spaced(history: seq<Delivery>) {
    forall k {:trigger history[..k]} :: 0 <= k <= |history| ==> SteersSinceReply(history[..k]) <= 1
  }

  lemma SpacedAppend(history: seq<Delivery>, d: Delivery)
    requires Spaced(history) && SteersSinceReply(history + [d]) <= 1
    ensures Spaced(history + [d])
  {
    forall k | 0 <= k <= |history + [d]| ensures SteersSinceReply((history + [d])[..k]) <= 1 {
      if k <= |history| {
        assert (history + [d])[..k] == history[..k];
      } else {
        assert (history + [d])[..k] == history + [d];
      }
    }
  }

  lemma {:induction false} NoSteersInitially(initial: seq<Message>)
    ensures SteersSinceReply(AsHistory(initial)) == 0 && Spaced(AsHistory(initial))
  {
    if initial != [] {
      var front := initial[..|initial| - 1];
      NoSteersInitially(front);
      SteersAppend(AsHistory(front), Delivery(Initial, initial[|initial| - 1]));
      SpacedAppend(AsHistory(front), Delivery(Initial, initial[|initial| - 1]));
      assert AsHistory(initial) == AsHistory(front) + [Delivery(Initial, initial[|initial| - 1])];
    } else {
      assert AsHistory(initial) == [];
    }
  }

  /** How many steering messages there can be since the last reply, delivered and held, phase by phase. */
  ghost predicate SteeringPaced(m: Monitor) {
    var c, p := SteersSinceReply(m.history), |Waiting(Steering, m)|;
    && (m.pending != [] ==> MayHold(m.phase))
    && match m.phase
       case Injecting(_) => c + p <= 1 && (!m.polledOnce && c > 0 ==> m.source == Steering)
       case Requested => c <= 1
       case Streaming => c <= 1
       case Failing(stage, _) => c <= (if stage < 2 then 1 else 0)
       case _ => c == 0 && p <= 1
  }

  lemma CountStep(m: Monitor, a: Action, m': Monitor)
    requires Summary(m, a, m')
    ensures var delivers := a.Emit? && a.event.MessageEnd?;
            SteersSinceReply(m'.history)
            == (if delivers && (DeliveryOrigin(m) == Model || DeliveryOrigin(m) == Failure) then 0
                else SteersSinceReply(m.history)
                     + (if delivers && DeliveryOrigin(m) == From(Steering) then 1 else 0))
  {
    if a.Emit? && a.event.MessageEnd? {
      SteersAppend(m.history, Delivery(DeliveryOrigin(m), a.event.message));
    } else {
      assert m'.history == m.history;
    }
  }

  lemma SpacedStep(m: Monitor, a: Action, m': Monitor)
    requires Summary(m, a, m') && Spaced(m.history) && SteersSinceReply(m'.history) <= 1
    ensures Spaced(m'.history)
  {
    if a.Emit? && a.event.MessageEnd? {
      SpacedAppend(m.history, Delivery(DeliveryOrigin(m), a.event.message));
    } else {
      assert m'.history == m.history;
    }
  }

  lemma PacedTools(m: Monitor, a: Action)
    requires SteeringPaced(m) && m.phase.Responded? && AdvanceTools(m, a).Some?
    ensures SteeringPaced(AdvanceTools(m, a).value)
  {
    ToolsSummary(m, a);
    CountStep(m, a, AdvanceTools(m, a).value);
  }

  lemma PacedInjecting(m: Monitor, a: Action)
    requires SteeringPaced(m) && m.phase.Injecting? && AdvanceInjecting(m, a).Some?
    requires a.Poll? ==> |a.messages| <= 1
    ensures SteeringPaced(AdvanceInjecting(m, a).value)
  {
    assert Advance(m, a) == AdvanceInjecting(m, a);
    AdvanceSummary(m, a);
    CountStep(m, a, AdvanceInjecting(m, a).value);
  }

  lemma PacedStep(m: Monitor, a: Action)
    requires SteeringPaced(m) && Advance(m, a).Some?
    requires (a.Poll? || a.Begin?) && a.source == Steering ==> |a.messages| <= 1
    ensures SteeringPaced(Advance(m, a).value)
  {
    if a.Enqueue? {
    } else if m.phase.Injecting? {
      PacedInjecting(m, a);
    } else if m.phase.Responded? {
      PacedTools(m, a);
    } else {
      AdvanceSummary(m, a);
      HoldingStep(m, a);
      CountStep(m, a, Advance(m, a).value);
    }
  }

  /**
   * One-at-a-time steering: when the steering queue gives one message at a time, no reply of the model is
   * preceded by more than one steering message since the reply before it, across all runs of a session.
   */
  lemma {:induction false} OneSteerPerReply(initial: seq<Message>, log: seq<Action>)
    requires Track(initial, log).Some? && SingleTakes(Steering, log)
    ensures SteeringPaced(Track(initial, log).value) && Spaced(Track(initial, log).value.history)
    decreases |log|
  {
    if log == [] {
      NoSteersInitially(initial);
    } else {
      var front := log[..|log| - 1];
      assert SingleTakes(Steering, front);
      OneSteerPerReply(initial, front);
      PacedStep(Track(initial, front).value, log[|log| - 1]);
      AdvanceSummary(Track(initial, front).value, log[|log| - 1]);
      SpacedStep(Track(initial, front).value, log[|log| - 1], Track(initial, log).value);
    }
  }

  // ----- When the loop turns to the follow-up queue -----

  function GoOnNext(goesOn: bool, a: Action): bool {
    match a
    case Emit(MessageEnd(Assistant(_))) => false
    case Emit(ToolEnd(_, _, output, _)) => goesOn || output.terminate != Some(true)
    case _ => goesOn
  }

  /** Since the last reply, some tool call has ended without asking to terminate. */
  function ToolsGoOn(log: seq<Action>): bool {
    log != [] && GoOnNext(ToolsGoOn(log[..|log| - 1]), log[|log| - 1])
  }

  /** The last thing that happened, apart from messages being queued. */
  function LastActed(log: seq<Action>): Option<Action> {
    if log == [] then None
    else if log[|log| - 1].Enqueue? then LastActed(log[..|log| - 1])
    else Some(log[|log| - 1])
  }

  ghost predicate GoOnAgrees(m: Monitor, goesOn: bool, last: Option<Action>) {
    match m.phase
    case Responded(_, t) => t.continuing == goesOn
    case TurnOver(more) => more == goesOn
    case Hooked(more) => more == goesOn
    case Polled(more) => more == goesOn && last == Some(Poll(Steering, m.pending))
    case _ => true
  }

  lemma ToolsGoOnStep(m: Monitor, a: Action, goesOn: bool)
    requires m.phase.Responded? && m.phase.tally.continuing == goesOn && AdvanceTools(m, a).Some?
    ensures GoOnAgrees(AdvanceTools(m, a).value, GoOnNext(goesOn, a), Some(a))
  {
  }

  lemma GoOnStep(m: Monitor, a: Action, goesOn: bool, last: Option<Action>)
    requires GoOnAgrees(m, goesOn, last) && Advance(m, a).Some?
    ensures GoOnAgrees(Advance(m, a).value, GoOnNext(goesOn, a), if a.Enqueue? then last else Some(a))
  {
    if m.phase.Responded? && !a.Enqueue? && !a.Fail? && !(a.Emit? && a.event.AgentEnd?) {
      ToolsGoOnStep(m, a, goesOn);
    }
  }

  lemma {:induction false} AlwaysGoOnAgrees(initial: seq<Message>, log: seq<Action>)
    requires Track(initial, log).Some?
    ensures GoOnAgrees(Track(initial, log).value, ToolsGoOn(log), LastActed(log))
    decreases |log|
  {
    if log != [] {
      var front := log[..|log| - 1];
      AlwaysGoOnAgrees(initial, front);
      GoOnStep(Track(initial, front).value, log[|log| - 1], ToolsGoOn(front), LastActed(front));
    }
  }

  /** The loop taps the follow-up queue only right after an empty steering poll and with no tool calls to continue. */
  lemma FollowUpOnlyWhenIdle(initial: seq<Message>, log: seq<Action>, k: nat)
    requires k < |log| && Track(initial, log).Some? && log[k].Poll? && log[k].source == FollowUp
    ensures LastActed(log[..k]) == Some(Poll(Steering, [])) && !ToolsGoOn(log[..k])
  {
    PrefixesAccepted(initial, log, k);
    PrefixesAccepted(initial, log, k + 1);
    assert log[..k + 1][..k] == log[..k];
    AlwaysGoOnAgrees(initial, log[..k]);
  }

  // ----- How many turns there can be -----

  /** Turns started since the run began. */
  function Turns(log: seq<Action>): nat {
    if log == [] || log[|log| - 1].Begin? then 0
    else Turns(log[..|log| - 1]) + (if log[|log| - 1] == Emit(TurnStart) then 1 else 0)
  }

  /** Queue polls since the run began. */
  function Polls(log: seq<Action>): nat {
    if log == [] || log[|log| - 1].Begin? then 0
    else Polls(log[..|log| - 1]) + (if log[|log| - 1].Poll? then 1 else 0)
  }

  /** Messages drained since the run began. */
  function Drains(log: seq<Action>): nat {
    if log == [] || log[|log| - 1].Begin? then 0
    else Drains(log[..|log| - 1]) + (if log[|log| - 1].Poll? then |log[|log| - 1].messages| else 0)
  }

  /** Turns since the run began whose tool batch asked to go on. */
  function Continuing(log: seq<Action>): nat {
    if log == [] || log[|log| - 1].Begin? then 0
    else
      Continuing(log[..|log| - 1])
      + (if log[|log| - 1].Emit? && log[|log| - 1].event.TurnEnd? && ToolsGoOn(log) then 1 else 0)
  }

  lemma CountersStep(m: Monitor, a: Action)
    requires Advance(m, a).Some?
    ensures var m' := Advance(m, a).value;
            && m'.run.turns == (if a.Begin? then 0 else m.run.turns + (if a == Emit(TurnStart) then 1 else 0))
            && m'.run.polls == (if a.Begin? then 0 else m.run.polls + (if a.Poll? then 1 else 0))
  {
    if m.phase.Responded? && !a.Enqueue? && !a.Fail? && !(a.Emit? && a.event.AgentEnd?) {
      assert AdvanceTools(m, a).value.run == m.run;
    }
  }

  lemma {:induction false} CountersAgree(initial: seq<Message>, log: seq<Action>)
    requires Track(initial, log).Some?
    ensures Track(initial, log).value.run.turns == Turns(log) && Track(initial, log).value.run.polls == Polls(log)
    decreases |log|
  {
    if log != [] {
      CountersAgree(initial, log[..|log| - 1]);
      CountersStep(Track(initial, log[..|log| - 1]).value, log[|log| - 1]);
    }
  }

  /** A turn that is already paid for and has not started. */
  function Credit(m: Monitor): nat {
    match m.phase
    case Begun => 1
    case Opening => 1
    case TurnOver(more) => if more then 1 else 0
    case Hooked(more) => if more then 1 else 0
    case Polled(more) => if more || m.pending != [] then 1 else 0
    case Drained => if m.pending != [] then 1 else 0
    case _ => 0
  }

  lemma CreditStep(m: Monitor, a: Action)
    requires Advance(m, a).Some?
    ensures var m' := Advance(m, a).value;
            Credit(m') + (if a == Emit(TurnStart) then 1 else 0)
            <= Credit(m) + (if a.Begin? then 1 else 0) + (if a.Poll? then |a.messages| else 0)
               + (if a.Emit? && a.event.TurnEnd? && m'.phase == TurnOver(true) then 1 else 0)
  {
    if m.phase.Responded? && a.Emit? && !a.event.AgentEnd? {
      assert Credit(m) == 0;
    }
  }

  /** Turn bound: each turn of a run is its first, or continues a tool batch, or answers a drained message. */
  lemma {:induction false} TurnBound(initial: seq<Message>, log: seq<Action>)
    requires Track(initial, log).Some?
    ensures Turns(log) + Credit(Track(initial, log).value) <= 1 + Continuing(log) + Drains(log)
    decreases |log|
  {
    if log != [] {
      TurnBound(initial, log[..|log| - 1]);
      AlwaysGoOnAgrees(initial, log);
      CreditStep(Track(initial, log[..|log| - 1]).value, log[|log| - 1]);
    }
  }

  // ----- Brackets -----

  /** One action on the message brackets of a run: None once they nest or cross a turn. */
  function BracketNext(open: Option<bool>, a: Action): Option<bool> {
    if a.Begin? then Some(false)
    else if open.None? then None
    else match a
      case Emit(MessageStart(_)) => if open.value then None else Some(true)
      case Emit(MessageUpdate(_)) => if open.value then Some(true) else None
      case Emit(MessageEnd(_)) => if open.value then Some(false) else None
      case Emit(_) => if open.value then None else Some(false)
      case _ => open
  }

  /**
   * The message brackets of the current run, read off the log alone: whether one is open, or None if they went wrong.
   */
  function MessageBracket(log: seq<Action>): Option<bool> {
    if log == [] then Some(false) else BracketNext(MessageBracket(log[..|log| - 1]), log[|log| - 1])
  }

  predicate MessageOpen(p: Phase) {
    || (p.Injecting? && p.open.Some?) || p.Streaming? || (p.Responded? && p.tally.open.Some?)
    || (p.Failing? && p.stage == 1)
  }

  predicate JustFailed(p: Phase) {
    p.Failing? && p.stage == 0
  }

  /** Brackets are right exactly as long as nothing was started or thrown in the middle of a reply. */
  ghost predicate BracketsRight(m: Monitor, open: Option<bool>) {
    if m.run.torn then open.None? || (JustFailed(m.phase) && open == Some(true))
    else open == Some(MessageOpen(m.phase))
  }

  lemma ToolsBracketStep(m: Monitor, a: Action)
    requires m.phase.Responded? && AdvanceTools(m, a).Some?
    ensures BracketNext(Some(MessageOpen(m.phase)), a) == Some(MessageOpen(AdvanceTools(m, a).value.phase))
    ensures AdvanceTools(m, a).value.run.torn == m.run.torn
  {
  }

  lemma FailingBracketStep(m: Monitor, a: Action, open: Option<bool>)
    requires m.phase.Failing? && AdvanceFailing(m, a).Some? && BracketsRight(m, open)
    ensures BracketsRight(AdvanceFailing(m, a).value, BracketNext(open, a))
  {
  }

  lemma InjectingBracketStep(m: Monitor, a: Action, open: Option<bool>)
    requires m.phase.Injecting? && AdvanceInjecting(m, a).Some? && BracketsRight(m, open)
    ensures BracketsRight(AdvanceInjecting(m, a).value, BracketNext(open, a))
  {
  }

  lemma BracketStep(m: Monitor, a: Action, open: Option<bool>)
    requires Advance(m, a).Some? && BracketsRight(m, open)
    ensures BracketsRight(Advance(m, a).value, BracketNext(open, a))
  {
    if a.Enqueue? {
    } else if m.phase.Failing? {
      FailingBracketStep(m, a, open);
    } else if m.phase.Injecting? {
      InjectingBracketStep(m, a, open);
    } else if m.phase.Responded? {
      ToolsBracketStep(m, a);
    }
  }

  /**
   * In every run, message brackets never nest and never cross a turn, exactly as long as the loop has not thrown, and
   * the stream has not started again, in the middle of a reply of this run.
   */
  lemma {:induction false} BracketsUnlessTorn(initial: seq<Message>, log: seq<Action>)
    requires Track(initial, log).Some?
    ensures BracketsRight(Track(initial, log).value, MessageBracket(log))
    decreases |log|
  {
    if log != [] {
      var front := log[..|log| - 1];
      BracketsUnlessTorn(initial, front);
      BracketStep(Track(initial, front).value, log[|log| - 1], MessageBracket(front));
    }
  }

  /** Where a listener is in the run and turn brackets; `any` says whether a turn of this run is complete. */
  datatype Frame = Between | Outside(any: bool) | Inside

  /** One action on run and turn brackets: agent_start, one or more turns with everything else in them, agent_end. */
  function FrameNext(frame: Option<Frame>, a: Action): Option<Frame> {
    if a.Begin? then Some(Between)
    else if frame.None? then None
    else
      var f := frame.value;
      match a
      case Emit(AgentStart) => if f == Between then Some(Outside(false)) else None
      case Emit(TurnStart) => if f.Outside? then Some(Inside) else None
      case Emit(TurnEnd(_, _)) => if f.Inside? then Some(Outside(true)) else None
      case Emit(AgentEnd(_)) => if f == Outside(true) then Some(Between) else None
      case Emit(_) => if f.Inside? then Some(Inside) else None
      case _ => frame
  }

  /** The run and turn brackets of the current run, read off the log alone. */
  function RunFrame(log: seq<Action>): Option<Frame> {
    if log == [] then Some(Between) else FrameNext(RunFrame(log[..|log| - 1]), log[|log| - 1])
  }

  function FrameOf(p: Phase): Frame {
    match p
    case Idle => Between
    case Begun => Between
    case Finished => Between
    case Opening => Outside(false)
    case TurnOver(_) => Outside(true)
    case Hooked(_) => Outside(true)
    case Polled(_) => Outside(true)
    case Drained => Outside(true)
    case Closing => Outside(true)
    case Failing(stage, _) => if stage == 3 then Outside(true) else Inside
    case _ => Inside
  }

  /** A run is framed exactly as long as the loop has not thrown outside a turn. */
  ghost predicate FrameRight(m: Monitor, frame: Option<Frame>) {
    if m.run.unframed then frame.None? || (JustFailed(m.phase) && frame != Some(Inside))
    else frame == Some(FrameOf(m.phase))
  }

  lemma ToolsFrameStep(m: Monitor, a: Action)
    requires m.phase.Responded? && AdvanceTools(m, a).Some?
    ensures FrameNext(Some(Inside), a) == Some(FrameOf(AdvanceTools(m, a).value.phase))
    ensures AdvanceTools(m, a).value.run.unframed == m.run.unframed
  {
  }

  /** Before the loop throws, it has not thrown yet. */
  predicate FlawsInOrder(m: Monitor) {
    m.run.unframed ==> m.phase.Failing? || m.phase.Finished? || m.phase.Idle?
  }

  lemma FailingFrameStep(m: Monitor, a: Action, frame: Option<Frame>)
    requires m.phase.Failing? && AdvanceFailing(m, a).Some? && FrameRight(m, frame)
    ensures var m' := AdvanceFailing(m, a).value; FrameRight(m', FrameNext(frame, a)) && FlawsInOrder(m')
  {
  }

  lemma InjectingFrameStep(m: Monitor, a: Action, frame: Option<Frame>)
    requires m.phase.Injecting? && AdvanceInjecting(m, a).Some? && FrameRight(m, frame) && FlawsInOrder(m)
    ensures var m' := AdvanceInjecting(m, a).value; FrameRight(m', FrameNext(frame, a)) && FlawsInOrder(m')
  {
  }

  lemma FrameStep(m: Monitor, a: Action, frame: Option<Frame>)
    requires Advance(m, a).Some? && FrameRight(m, frame) && FlawsInOrder(m)
    ensures FrameRight(Advance(m, a).value, FrameNext(frame, a)) && FlawsInOrder(Advance(m, a).value)
  {
    if a.Enqueue? {
    } else if m.phase.Failing? {
      FailingFrameStep(m, a, frame);
    } else if m.phase.Injecting? {
      InjectingFrameStep(m, a, frame);
    } else if m.phase.Responded? {
      ToolsFrameStep(m, a);
    }
  }

  /**
   * Event grammar: every run is agent_start, one or more turns, and one final agent_end, with every other event inside
   * a turn; exactly as long as the loop has not thrown outside a turn of this run, where the failure is reported
   * without a turn_start.
   */
  lemma {:induction false} RunsAreFramed(initial: seq<Message>, log: seq<Action>)
    requires Track(initial, log).Some?
    ensures var m := Track(initial, log).value; FrameRight(m, RunFrame(log)) && FlawsInOrder(m)
    decreases |log|
  {
    if log != [] {
      var front := log[..|log| - 1];
      RunsAreFramed(initial, front);
      FrameStep(Track(initial, front).value, log[|log| - 1], RunFrame(front));
    }
  }

  function ToolStarts(id: string, log: seq<Action>): nat {
    if log == [] then 0
    else
      var a := log[|log| - 1];
      ToolStarts(id, log[..|log| - 1]) + (if a.Emit? && a.event.ToolStart? && a.event.id == id then 1 else 0)
  }

  function ToolEnds(id: string, log: seq<Action>): nat {
    if log == [] then 0
    else
      var a := log[|log| - 1];
      ToolEnds(id, log[..|log| - 1]) + (if a.Emit? && a.event.ToolEnd? && a.event.id == id then 1 else 0)
  }

  function RunningCount(m: Monitor, id: string): nat {
    if m.phase.Responded? then m.phase.tally.running[id] else 0
  }

  /** What an action does to the running calls of a batch. */
  lemma RunningNext(m: Monitor, a: Action)
    requires m.phase.Responded? && AdvanceTools(m, a).Some?
    ensures var running, p' := m.phase.tally.running, AdvanceTools(m, a).value.phase;
            match a
            case Emit(ToolStart(id, _, _)) => p'.Responded? && p'.tally.running == running + multiset{id}
            case Emit(ToolEnd(id, _, _, _)) =>
              p'.Responded? && id in running && p'.tally.running == running - multiset{id}
            case _ => if p'.Responded? then p'.tally.running == running else running == multiset{}
  {
  }

  lemma ToolsRunningStep(m: Monitor, a: Action, id: string)
    requires m.phase.Responded? && AdvanceTools(m, a).Some?
    ensures RunningCount(AdvanceTools(m, a).value, id)
            + (if a.Emit? && a.event.ToolEnd? && a.event.id == id then 1 else 0)
         == RunningCount(m, id) + (if a.Emit? && a.event.ToolStart? && a.event.id == id then 1 else 0)
  {
    RunningNext(m, a);
    match a {
      case Emit(ToolStart(started, _, _)) => OneMore(m.phase.tally.running, started, id);
      case Emit(ToolEnd(ended, _, _, _)) => OneLess(m.phase.tally.running, ended, id);
      case _ =>
    }
  }

  lemma OneMore(ids: multiset<string>, x: string, id: string)
    ensures (ids + multiset{x})[id] == ids[id] + (if x == id then 1 else 0)
  {
  }

  lemma OneLess(ids: multiset<string>, x: string, id: string)
    requires x in ids
    ensures (ids - multiset{x})[id] + (if x == id then 1 else 0) == ids[id]
  {
  }

  lemma RunningStep(m: Monitor, a: Action, id: string)
    requires Advance(m, a).Some?
    ensures RunningCount(Advance(m, a).value, id) + (if a.Emit? && a.event.ToolEnd? && a.event.id == id then 1 else 0)
         == RunningCount(m, id) + (if a.Emit? && a.event.ToolStart? && a.event.id == id then 1 else 0)
  {
    if m.phase.Responded? && !a.Enqueue? && !a.Fail? && !(a.Emit? && a.event.AgentEnd?) {
      ToolsRunningStep(m, a, id);
    } else if m.phase.Streaming? {
      assert NO_TOOLS.running == multiset{};
    }
  }

  /** Every tool_execution_start has exactly one end: outside a batch, as many ends as starts, for every id. */
  lemma {:induction false} ToolBrackets(initial: seq<Message>, log: seq<Action>, id: string)
    requires Track(initial, log).Some?
    ensures ToolStarts(id, log) == ToolEnds(id, log) + RunningCount(Track(initial, log).value, id)
    decreases |log|
  {
    if log != [] {
      ToolBrackets(initial, log[..|log| - 1], id);
      RunningStep(Track(initial, log[..|log| - 1]).value, log[|log| - 1], id);
    }
  }

  // ----- Tool results of a turn -----

  /** Whether the tool loop has found the signal aborted since the last reply. */
  function SawAbort(log: seq<Action>): bool {
    if log == [] then false
    else match log[|log| - 1]
      case AbortSeen => true
      case Emit(MessageEnd(Assistant(_))) => false
      case _ => SawAbort(log[..|log| - 1])
  }

  /** `results` answer, by id and name and in source order, the first of `calls`. */
  ghost predicate AnswersPrefix(results: seq<ToolResultMessage>, calls: seq<ToolCall>) {
    |results| <= |calls| && forall i :: 0 <= i < |results| ==> Answers(results[i], calls[i])
  }

  /** The tool calls of the reply, as far as they are handled. */
  ghost predicate Paired(p: Phase, sawAbort: bool) {
    p.Responded? ==>
      var calls, t := ToolCalls(p.reply.content), p.tally;
      && AnswersPrefix(t.results, calls) && |t.results| <= t.started <= |calls|
      && (t.open.Some? ==> |t.results| < t.started && Answers(t.open.value, calls[|t.results|]))
      && t.aborted == sawAbort && (t.aborted ==> t.started > 0)
      && (p.reply.Failed() ==> t.started == 0)
  }

  lemma OneMoreAnswer(results: seq<ToolResultMessage>, calls: seq<ToolCall>, r: ToolResultMessage)
    requires AnswersPrefix(results, calls) && |results| < |calls| && Answers(r, calls[|results|])
    ensures AnswersPrefix(results + [r], calls)
  {
  }

  lemma ToolsPairStep(m: Monitor, a: Action, sawAbort: bool)
    requires m.phase.Responded? && Paired(m.phase, sawAbort) && AdvanceTools(m, a).Some?
    ensures Paired(AdvanceTools(m, a).value.phase, sawAbort || a.AbortSeen?)
  {
    if a.Emit? && a.event.MessageEnd? {
      OneMoreAnswer(m.phase.tally.results, ToolCalls(m.phase.reply.content), a.event.message.result);
    }
  }

  lemma PairStep(m: Monitor, a: Action, sawAbort: bool)
    requires Paired(m.phase, sawAbort) && Advance(m, a).Some?
    ensures Paired(Advance(m, a).value.phase,
                   a.AbortSeen? || (sawAbort && !(a.Emit? && a.event.MessageEnd? && a.event.message.Assistant?)))
  {
    if m.phase.Responded? && !a.Enqueue? && !a.Fail? && !(a.Emit? && a.event.AgentEnd?) {
      ToolsPairStep(m, a, sawAbort);
    }
  }

  lemma {:induction false} AlwaysPaired(initial: seq<Message>, log: seq<Action>)
    requires Track(initial, log).Some?
    ensures Paired(Track(initial, log).value.phase, SawAbort(log))
    decreases |log|
  {
    if log != [] {
      var front, a := log[..|log| - 1], log[|log| - 1];
      AlwaysPaired(initial, front);
      PairStep(Track(initial, front).value, a, SawAbort(front));
    }
  }

  /**
   * Tool-result pairing: the results reported with a turn answer, in source order, the first calls of the reply that
   * precedes them; at least one if the reply ran any, and all of them unless the signal was seen aborted.
   */
  lemma TurnResultsPair(initial: seq<Message>, log: seq<Action>, k: nat)
    requires k < |log| && Track(initial, log).Some? && log[k].Emit? && log[k].event.TurnEnd?
    requires !Track(initial, log[..k]).Some? || !Track(initial, log[..k]).value.phase.Failing?
    ensures log[k].event.message.Assistant?
    ensures var reply, results := log[k].event.message.assistant, log[k].event.toolResults;
            var calls := ToolCalls(reply.content);
            && AnswersPrefix(results, calls)
            && (if reply.Failed() then results == []
                else (calls != [] ==> results != []) && (!SawAbort(log[..k]) ==> |results| == |calls|))
  {
    PrefixesAccepted(initial, log, k);
    PrefixesAccepted(initial, log, k + 1);
    assert log[..k + 1][..k] == log[..k];
    AlwaysPaired(initial, log[..k]);
  }

  // ----- A log that explains an agent -----

  datatype QueueMode = All | OneAtATime

  /** How many of `n` queued messages one drain takes. */
  function Takes(mode: QueueMode, n: nat): (r: nat)
    ensures r <= n && (r == 0 <==> n == 0)
  {
    if mode == All || n == 0 then n else 1
  }

  datatype QueueView = QueueView(messages: seq<Message>, mode: QueueMode)

  /** Messages put into a queue are, in order, those taken out and then those still waiting. */
  ghost predicate Balanced(s: Source, q: QueueView, log: seq<Action>) {
    && Enqueued(s, log) == Taken(s, log) + q.messages
    && (q.mode == OneAtATime ==> SingleTakes(s, log))
  }

  /** What an action does to a queue. */
  ghost predicate QueueEffect(s: Source, a: Action, q: QueueView, q': QueueView) {
    && q'.mode == q.mode
    && if a.Enqueue? && a.source == s then q'.messages == q.messages + [a.message]
       else if (a.Poll? || a.Begin?) && a.source == s then
         q.messages == a.messages + q'.messages && (q.mode == OneAtATime ==> |a.messages| <= 1)
       else q'.messages == q.messages
  }

  lemma BalancedStep(s: Source, a: Action, q: QueueView, q': QueueView, log: seq<Action>)
    requires Balanced(s, q, log) && QueueEffect(s, a, q, q')
    ensures Balanced(s, q', log + [a])
  {
    assert (log + [a])[..|log|] == log;
    assert Enqueued(s, log + [a]) == Enqueued(s, log) + (if a.Enqueue? && a.source == s then [a.message] else []);
  }

  /** The log leads from the initial transcript to exactly this state of the agent and its queues. */
  ghost predicate Explains(initial: seq<Message>, log: seq<Action>, m: Monitor, state: AgentState,
                           steering: QueueView, followUp: QueueView)
  {
    && Track(initial, log) == Some(m)
    && Replay(initial, log) == state
    && Balanced(Steering, steering, log)
    && Balanced(FollowUp, followUp, log)
  }

  lemma ExplainsStep(initial: seq<Message>, log: seq<Action>, a: Action, m: Monitor, state: AgentState,
                     steering: QueueView, followUp: QueueView, steering': QueueView, followUp': QueueView)
    requires Explains(initial, log, m, state, steering, followUp)
    requires Advance(m, a).Some?
    requires QueueEffect(Steering, a, steering, steering') && QueueEffect(FollowUp, a, followUp, followUp')
    ensures Explains(initial, log + [a], Advance(m, a).value, Reduce(state, a), steering', followUp')
  {
    TrackStep(initial, log, a);
    ReplayStep(initial, log, a);
    BalancedStep(Steering, a, steering, steering', log);
    BalancedStep(FollowUp, a, followUp, followUp', log);
  }

  /**
   * Queue conservation between runs: every message ever enqueued is in the transcript, once and in the order it was
   * enqueued, or still waits in its queue.
   */
  lemma QueueConservation(s: Source, initial: seq<Message>, log: seq<Action>, q: QueueView)
    requires Track(initial, log).Some? && Track(initial, log).value.phase.Idle? && Balanced(s, q, log)
    ensures Enqueued(s, log) == DeliveredFrom(s, Track(initial, log).value.history) + q.messages
  {
    TakenIsDelivered(s, initial, log);
  }
}
