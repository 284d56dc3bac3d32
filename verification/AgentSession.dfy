/** The agent's public operations: prompts, continuations, and whole sessions of them. */
module AgentSession {
  import opened Common
  import opened AgentTypes
  import opened ToolOutcome
  import opened Protocol
  import opened ProtocolFacts
  import opened AgentHost
  import opened AgentTurn
  import opened RunForecast
  import opened AgentLoop

  const PROMPT_BUSY :=
    "Agent is already processing a prompt. Use steer() or followUp() to queue messages, or wait for completion."
  const CONTINUE_BUSY := "Agent is already processing. Wait for completion before continuing."
  const NO_MESSAGES := "No messages to continue from"
  const ASSISTANT_TAIL := "Cannot continue from message role: assistant"

  /** Between runs: nothing active, nothing streaming, no pending tool call. */
  ghost predicate AtRest(agent: Agent)
    reads agent, agent.steeringQueue, agent.followUpQueue
  {
    && agent.Valid() && !agent.activeRun && agent.mon.pending == []
    && !agent.isStreaming && agent.streamingMessage == None && agent.pendingToolCalls == {}
  }

  /** A run has begun with `prompts`, and the transcript before it is `base`. */
  ghost predicate RunBegun(agent: Agent, base: seq<Message>, prompts: seq<Message>)
    reads agent, agent.steeringQueue, agent.followUpQueue
  {
    && agent.Valid() && agent.activeRun && agent.mon.phase == Begun && agent.mon.pending == prompts
    && !agent.mon.polledOnce && agent.mon.runStart == |agent.mon.history| && base == Contents(agent.mon.history)
    && agent.mon.run == NEW_RUN
  }

  /** agent_start and the first turn_start. */
  method OpenRun(agent: Agent)
    requires agent.Valid() && agent.activeRun && agent.mon.phase == Begun && agent.mon.run == NEW_RUN
    modifies agent
    ensures agent.Valid() && agent.activeRun && Silent(old(agent.log), agent.log)
    ensures agent.mon == old(agent.mon).(phase := Injecting(None), run := RunView(1, 0, false, false))
  {
    agent.ProcessEvents(AgentStart);
    agent.ProcessEvents(TurnStart);
  }

  /** A run that is done is done from an earlier origin too, if nothing was enqueued or replied in between. */
  lemma StillDone(agent: Agent, o: Origins, o': Origins, script: RunScript, thrown: Option<string>)
    requires Silent(o.log, o'.log) && Further(o.m, o'.m) && o.start == o'.start
    requires Unprompted(o'.m.history) == Unprompted(o.m.history)
    requires RunDone(agent, o', script, thrown)
    ensures RunDone(agent, o, script, thrown)
  {
  }

  method RunAgentLoop(agent: Agent, base: seq<Message>, prompts: seq<Message>, skipFirstPoll: bool, script: RunScript)
    returns (thrown: Option<string>)
    requires RunBegun(agent, base, prompts) && Contract(agent.tools, script)
    requires agent.mon.source == Steering ==> skipFirstPoll
    modifies agent, agent.steeringQueue, agent.followUpQueue
    ensures RunDone(agent, Origins(old(agent.mon), old(agent.log), old(StartOf(agent, skipFirstPoll))), script, thrown)
    ensures old(agent.mon).history + Injected(old(agent.mon).source, prompts) <= agent.mon.history
  {
    ghost var o := Origins(agent.mon, agent.log, StartOf(agent, skipFirstPoll));
    var context := new AgentContext(base + prompts);
    OpenRun(agent);
    InjectAll(agent, prompts);
    ContentsConcat(o.m.history, Injected(o.m.source, prompts));
    assert Contents(Injected(o.m.source, prompts)) == prompts;
    UnpromptedPrompts(o.m.history, o.m.source, prompts);
    ghost var o' := Origins(agent.mon, agent.log, o.start);
    thrown := RunLoop(agent, context, prompts, skipFirstPoll, script);
    StillDone(agent, o, o', script, thrown);
  }

  method RunAgentLoopContinue(agent: Agent, base: seq<Message>, script: RunScript)
    returns (thrown: Option<string>)
    requires RunBegun(agent, base, []) && Contract(agent.tools, script) && agent.mon.source != Steering
    modifies agent, agent.steeringQueue, agent.followUpQueue
    ensures LoopOver(agent, thrown) && Further(old(agent.mon), agent.mon)
    ensures if base == [] || base[|base| - 1].Assistant? then thrown.Some? && agent.mon.run.unframed
            else RunDone(agent, Origins(old(agent.mon), old(agent.log), old(StartOf(agent, false))), script, thrown)
  {
    ghost var o := Origins(agent.mon, agent.log, StartOf(agent, false));
    if base == [] {
      agent.Note(Fail);
      return Some("Cannot continue: no messages in context");
    }
    if base[|base| - 1].Assistant? {
      agent.Note(Fail);
      return Some(ASSISTANT_TAIL);
    }
    var context := new AgentContext(base);
    OpenRun(agent);
    ghost var o' := Origins(agent.mon, agent.log, o.start);
    thrown := RunLoop(agent, context, [], false, script);
    StillDone(agent, o, o', script, thrown);
  }

  /** The synthetic assistant message a failed run ends with. */
  method HandleRunFailure(agent: Agent, message: string, aborted: bool)
    requires LoopOver(agent, Some(message))
    modifies agent
    ensures LoopOver(agent, None) && Silent(old(agent.log), agent.log)
    ensures var failure := AssistantMessage([Text("")], if aborted then Aborted else Error, Some(message));
            agent.mon == Deliver(old(agent.mon), Failure, Assistant(failure), Finished)
  {
    var failure := FailureMessage(message, aborted);
    agent.ProcessEvents(MessageStart(failure));
    agent.ProcessEvents(MessageEnd(failure));
    agent.ProcessEvents(TurnEnd(failure, []));
    agent.ProcessEvents(AgentEnd([failure]));
  }

  function FailureMessage(message: string, aborted: bool): Message {
    Assistant(AssistantMessage([Text("")], if aborted then Aborted else Error, Some(message)))
  }

  /** The second half of runWithLifecycle. */
  method EndRun(agent: Agent, thrown: Option<string>, aborted: bool)
    requires LoopOver(agent, thrown)
    modifies agent
    ensures AtRest(agent) && Silent(old(agent.log), agent.log) && old(agent.log) < agent.log
    ensures var m := old(agent.mon);
            agent.mon == m.(phase := Idle,
                            history := m.history + (if thrown.None? then []
                                                    else [Delivery(Failure, FailureMessage(thrown.value, aborted))]))
  {
    if thrown.Some? {
      HandleRunFailure(agent, thrown.value, aborted);
    }
    agent.FinishRun();
  }

  /** The agent's transcript is the one its log tells. */
  lemma TranscriptIsHistory(agent: Agent)
    requires agent.Valid()
    ensures agent.messages == Contents(agent.mon.history) && agent.mon.runStart <= |agent.mon.history|
  {
    assert agent.ExplainedBy(agent.log);
    AgentAgrees(agent.initial, agent.log);
  }

  lemma IdleIsAtRest(agent: Agent)
    requires agent.Valid() && !agent.activeRun
    ensures AtRest(agent)
  {
    assert agent.ExplainedBy(agent.log);
    AgentAgrees(agent.initial, agent.log);
    TakenIsDelivered(Steering, agent.initial, agent.log);
  }

  // ----- What a finished run shows -----

  /**
   * A finished run, read off its log: its last turn is the one to be foreseen; its events are well framed if and only
   * if that turn did not end in a throwing hook, and its message brackets are right if and only if the stream of that
   * turn did not break in the middle of a reply; and its turns are bounded.
   */
  ghost predicate RunReport(tools: seq<Tool>, script: RunScript, start: Start, log: seq<Action>) {
    && Turns(log) > 0 && Polls(log) > 0 && Turns(log) <= 1 + Continuing(log) + Drains(log)
    && forall last: nat {:trigger LastTurnShows(tools, script, start, last, log)} :: Turns(log) == last + 1 ==>
         LastTurnShows(tools, script, start, last, log)
  }

  ghost predicate LastTurnShows(tools: seq<Tool>, script: RunScript, start: Start, last: nat, log: seq<Action>) {
    && EndsWith(tools, script, start, last)
    && (RunFrame(log) == Some(Between) <==> EndingOf(script.turns(last)) != HookThrew)
    && (MessageBracket(log) == Some(false) <==> EndingOf(script.turns(last)) != ThrewMidReply)
  }

  /**
   * What is known beforehand: script, queue lengths and modes determine the last turn of a run, and that turn decides
   * whether the run is well framed and whether its brackets are right. So a run none of whose hooks throws is well
   * framed, and one none of whose started streams breaks has right brackets.
   */
  lemma ScriptForetells(tools: seq<Tool>, script: RunScript, start: Start, log: seq<Action>, last: nat)
    requires RunReport(tools, script, start, log)
    ensures EndsWith(tools, script, start, last) <==> Turns(log) == last + 1
    ensures EndsWith(tools, script, start, last) ==>
      && (RunFrame(log) == Some(Between) <==> EndingOf(script.turns(last)) != HookThrew)
      && (MessageBracket(log) == Some(false) <==> EndingOf(script.turns(last)) != ThrewMidReply)
    ensures (forall t: nat :: EndingOf(script.turns(t)) != HookThrew) ==> RunFrame(log) == Some(Between)
    ensures (forall t: nat :: EndingOf(script.turns(t)) != ThrewMidReply) ==> MessageBracket(log) == Some(false)
  {
    var k: nat := Turns(log) - 1;
    assert LastTurnShows(tools, script, start, k, log);
    if EndsWith(tools, script, start, last) {
      OneLastTurn(tools, script, start, k, last);
    }
  }

  /** The flaws of the last run, as its log shows them. */
  lemma IdleShowsFlaws(initial: seq<Message>, log: seq<Action>)
    requires Track(initial, log).Some? && Track(initial, log).value.phase.Idle?
    ensures var run := Track(initial, log).value.run;
            && run.turns == Turns(log) && run.polls == Polls(log)
            && (RunFrame(log) == Some(Between) <==> !run.unframed)
            && (MessageBracket(log) == Some(false) <==> !run.torn)
            && Turns(log) <= 1 + Continuing(log) + Drains(log)
  {
    CountersAgree(initial, log);
    RunsAreFramed(initial, log);
    BracketsUnlessTorn(initial, log);
    TurnBound(initial, log);
  }

  lemma RestReports(agent: Agent, script: RunScript, start: Start, thrown: Option<string>)
    requires AtRest(agent) && RunEnded(agent.tools, script, agent.mon.run, thrown)
    requires EndForeseen(agent.tools, script, start, agent.mon.run.turns)
    ensures RunReport(agent.tools, script, start, agent.log)
  {
    assert agent.ExplainedBy(agent.log);
    IdleShowsFlaws(agent.initial, agent.log);
    forall last: nat | Turns(agent.log) == last + 1 ensures LastTurnShows(agent.tools, script, start, last, agent.log) {
      assert EndedWith(agent.tools, script, last, agent.mon.run, thrown);
      assert EndsWith(agent.tools, script, start, last);
    }
  }

  /** A run starts from the whole transcript, enters its prompts first, and removes nothing. */
  ghost predicate RanWith(m: Monitor, source: Source, prompts: seq<Message>, m': Monitor) {
    m.history + Injected(source, prompts) <= m'.history && m'.runStart == |m.history|
  }

  /** The message a run ends with when its last turn threw. */
  function FailureOf(turn: TurnScript, aborted: bool): seq<Delivery> {
    var thrown := ThrownBy(turn);
    if thrown.None? then [] else [Delivery(Failure, FailureMessage(thrown.value, aborted))]
  }

  /**
   * What a run adds to the transcript besides prompts and queued messages: the replies and tool results of the turns it
   * made, in order, and the failure message if the last one threw.
   */
  ghost predicate RunGave(tools: seq<Tool>, script: RunScript, aborted: bool, m: Monitor, m': Monitor) {
    forall last: nat {:trigger GaveThrough(tools, script, last, aborted, m.history, m'.history)} ::
      m'.run.turns == last + 1 ==> GaveThrough(tools, script, last, aborted, m.history, m'.history)
  }

  ghost predicate GaveThrough(tools: seq<Tool>, script: RunScript, last: nat, aborted: bool, h: seq<Delivery>,
                              h': seq<Delivery>)
  {
    Unprompted(h')
    == Unprompted(h) + TurnsGive(tools, script, last + 1) + FailureOf(script.turns(last), aborted)
  }

  lemma GivesThrough(tools: seq<Tool>, script: RunScript, last: nat, aborted: bool, h0: seq<Delivery>, h: seq<Delivery>,
                     run: RunView, thrown: Option<string>)
    requires Gained(h0, tools, script, last + 1, h) && EndedWith(tools, script, last, run, thrown)
    ensures var failure := if thrown.None? then [] else [Delivery(Failure, FailureMessage(thrown.value, aborted))];
            GaveThrough(tools, script, last, aborted, h0, h + failure)
  {
    FailureGiven(h, script.turns(last), aborted);
    assert Unprompted(h) == Unprompted(h0) + TurnsGive(tools, script, last + 1);
  }

  /** A whole run from one log to the next: what it shows, and what was queued meanwhile. */
  ghost predicate RanFrom(tools: seq<Tool>, script: RunScript, start: Start, log: seq<Action>, log': seq<Action>) {
    && log < log' && RunReport(tools, script, start, log')
    && Received(log, log', Arrived(script.steered, Polls(log')), Arrived(script.followed, Polls(log')))
  }

  lemma FailureGiven(h: seq<Delivery>, turn: TurnScript, aborted: bool)
    ensures Unprompted(h + FailureOf(turn, aborted)) == Unprompted(h) + FailureOf(turn, aborted)
  {
    UnpromptedAppend(h, FailureOf(turn, aborted));
    UnpromptedUniform(FailureOf(turn, aborted), false);
  }

  /** From the end of the loop to rest. */
  method ComeToRest(agent: Agent, ghost o: Origins, script: RunScript, thrown: Option<string>, aborted: bool)
    requires RunDone(agent, o, script, thrown)
    modifies agent
    ensures AtRest(agent) && RanFrom(agent.tools, script, o.start, o.log, agent.log)
    ensures RunGave(agent.tools, script, aborted, o.m, agent.mon)
    ensures old(agent.mon).history <= agent.mon.history && agent.mon.runStart == old(agent.mon).runStart
  {
    ghost var log := agent.log;
    EndRun(agent, thrown, aborted);
    forall last: nat | agent.mon.run.turns == last + 1
      ensures GaveThrough(agent.tools, script, last, aborted, o.m.history, agent.mon.history)
    {
      assert EndedWith(agent.tools, script, last, old(agent.mon).run, thrown);
      GivesThrough(agent.tools, script, last, aborted, o.m.history, old(agent.mon).history, agent.mon.run, thrown);
    }
    RestReports(agent, script, o.start, thrown);
    assert agent.ExplainedBy(agent.log);
    IdleShowsFlaws(agent.initial, agent.log);
    ghost var polls := agent.mon.run.polls;
    assert Received(o.log, log, Arrived(script.steered, polls), Arrived(script.followed, polls));
    StillAccounted(o, script, polls, log, agent.log);
  }

  /** A run with prompts from one of the sources, begun and not yet started. */
  method CompleteRun(agent: Agent, base: seq<Message>, prompts: seq<Message>, skipFirstPoll: bool, script: RunScript,
                     aborted: bool, ghost m0: Monitor, ghost log0: seq<Action>)
    requires RunBegun(agent, base, prompts) && Contract(agent.tools, script)
    requires agent.mon.source == Steering ==> skipFirstPoll
    requires agent.mon == AfterBegin(m0, agent.mon.source, prompts) && Silent(log0, agent.log)
    modifies agent, agent.steeringQueue, agent.followUpQueue
    ensures AtRest(agent) && RanFrom(agent.tools, script, old(StartOf(agent, skipFirstPoll)), log0, agent.log)
    ensures RanWith(m0, old(agent.mon).source, prompts, agent.mon)
    ensures RunGave(agent.tools, script, aborted, m0, agent.mon)
  {
    ghost var o' := Origins(agent.mon, agent.log, StartOf(agent, skipFirstPoll));
    ghost var o := Origins(m0.(runStart := agent.mon.runStart), log0, o'.start);
    var thrown := RunAgentLoop(agent, base, prompts, skipFirstPoll, script);
    StillDone(agent, o, o', script, thrown);
    ComeToRest(agent, o, script, thrown, aborted);
  }

  method Prompt(agent: Agent, prompts: seq<Message>, script: RunScript, aborted: bool)
    returns (error: Option<string>)
    requires agent.Valid() && Contract(agent.tools, script)
    modifies agent, agent.steeringQueue, agent.followUpQueue
    ensures error == if old(agent.activeRun) then Some(PROMPT_BUSY) else None
    ensures error.Some? ==> agent.State() == old(agent.State()) && agent.log == old(agent.log)
    ensures error.None? ==> AtRest(agent) && RanWith(old(agent.mon), Caller, prompts, agent.mon)
    ensures error.None? ==>
      && RanFrom(agent.tools, script, old(StartOf(agent, false)), old(agent.log), agent.log)
      && RunGave(agent.tools, script, aborted, old(agent.mon), agent.mon)
  {
    if agent.activeRun {
      return Some(PROMPT_BUSY);
    }
    IdleIsAtRest(agent);
    TranscriptIsHistory(agent);
    var base := agent.messages;
    agent.BeginRun(prompts);
    CompleteRun(agent, base, prompts, false, script, aborted, old(agent.mon), old(agent.log));
    return None;
  }

  /** What a continuation starts with: after an assistant message its prompts come out of the queues first. */
  function ContinueStart(afterReply: bool, s: Start): Start {
    if !afterReply then s.(skip := false)
    else if s.steering > 0 then s.(steering := s.steering - Takes(s.steeringMode, s.steering), skip := true)
    else s.(followUps := s.followUps - Takes(s.followUpMode, s.followUps), skip := false)
  }

  predicate EndsWithReply(messages: seq<Message>) {
    messages != [] && messages[|messages| - 1].Assistant?
  }

  /**
   * Continue from the transcript. After an assistant message it is the queues that supply the prompts, steering first;
   * the run then skips its first steering poll.
   */
  method Continue(agent: Agent, script: RunScript, aborted: bool)
    returns (error: Option<string>)
    requires agent.Valid() && Contract(agent.tools, script)
    modifies agent, agent.steeringQueue, agent.followUpQueue
    ensures error
         == if old(agent.activeRun) then Some(CONTINUE_BUSY)
            else if old(agent.messages) == [] then Some(NO_MESSAGES)
            else if EndsWithReply(old(agent.messages))
                    && old(agent.steeringQueue.messages) == [] && old(agent.followUpQueue.messages) == []
            then Some(ASSISTANT_TAIL) else None
    ensures error.Some? ==>
      agent.State() == old(agent.State()) && agent.mon == old(agent.mon) && agent.log == old(agent.log)
    ensures error.None? ==>
      && RanFrom(agent.tools, script, ContinueStart(EndsWithReply(old(agent.messages)), old(StartOf(agent, false))),
                 old(agent.log), agent.log)
      && RunGave(agent.tools, script, aborted, old(agent.mon), agent.mon)
    ensures !old(agent.activeRun) ==> AtRest(agent) && old(agent.mon).history <= agent.mon.history
    ensures error.None? && EndsWithReply(old(agent.messages)) ==>
      ServedFirst(old(agent.mon), old(agent.steeringQueue.messages), old(agent.followUpQueue.messages), agent.mon)
  {
    if agent.activeRun {
      return Some(CONTINUE_BUSY);
    }
    IdleIsAtRest(agent);
    TranscriptIsHistory(agent);
    error := ContinueAtRest(agent, agent.messages, script, aborted);
  }

  method ContinueAtRest(agent: Agent, base: seq<Message>, script: RunScript, aborted: bool)
    returns (error: Option<string>)
    requires AtRest(agent) && Contract(agent.tools, script) && base == Contents(agent.mon.history)
    modifies agent, agent.steeringQueue, agent.followUpQueue
    ensures error
         == if base == [] then Some(NO_MESSAGES)
            else if EndsWithReply(base)
                    && old(agent.steeringQueue.messages) == [] && old(agent.followUpQueue.messages) == []
            then Some(ASSISTANT_TAIL) else None
    ensures error.Some? ==>
      agent.State() == old(agent.State()) && agent.mon == old(agent.mon) && agent.log == old(agent.log)
    ensures error.None? ==>
      && RanFrom(agent.tools, script, ContinueStart(EndsWithReply(base), old(StartOf(agent, false))),
                 old(agent.log), agent.log)
      && RunGave(agent.tools, script, aborted, old(agent.mon), agent.mon)
    ensures AtRest(agent) && old(agent.mon).history <= agent.mon.history
    ensures error.None? && EndsWithReply(base) ==>
      ServedFirst(old(agent.mon), old(agent.steeringQueue.messages), old(agent.followUpQueue.messages), agent.mon)
  {
    if base == [] {
      return Some(NO_MESSAGES);
    }
    if base[|base| - 1].Assistant? {
      error := ContinueFromQueues(agent, base, script, aborted);
      return;
    }
    ContinueFromTranscript(agent, base, script, aborted);
    return None;
  }

  method ContinueFromTranscript(agent: Agent, base: seq<Message>, script: RunScript, aborted: bool)
    requires AtRest(agent) && Contract(agent.tools, script) && base == Contents(agent.mon.history)
    requires base != [] && !EndsWithReply(base)
    modifies agent, agent.steeringQueue, agent.followUpQueue
    ensures AtRest(agent) && old(agent.mon).history <= agent.mon.history
    ensures RanFrom(agent.tools, script, old(StartOf(agent, false)), old(agent.log), agent.log)
    ensures RunGave(agent.tools, script, aborted, old(agent.mon), agent.mon)
  {
    agent.BeginRun([]);
    ghost var o' := Origins(agent.mon, agent.log, StartOf(agent, false));
    ghost var o := Origins(old(agent.mon).(runStart := agent.mon.runStart), old(agent.log), o'.start);
    var thrown := RunAgentLoopContinue(agent, base, script);
    StillDone(agent, o, o', script, thrown);
    ComeToRest(agent, o, script, thrown, aborted);
  }

  /** The run began with what the steering queue gave, or, if that was empty, with what the follow-up queue gave. */
  ghost predicate ServedFirst(m: Monitor, steering: seq<Message>, followUps: seq<Message>, m': Monitor) {
    var source, queue := if steering != [] then Steering else FollowUp, if steering != [] then steering else followUps;
    exists prompts :: prompts != [] && prompts <= queue && RanWith(m, source, prompts, m')
  }

  method ContinueFromQueues(agent: Agent, base: seq<Message>, script: RunScript, aborted: bool)
    returns (error: Option<string>)
    requires AtRest(agent) && Contract(agent.tools, script) && base == Contents(agent.mon.history)
    modifies agent, agent.steeringQueue, agent.followUpQueue
    ensures error
         == if old(agent.steeringQueue.messages) == [] && old(agent.followUpQueue.messages) == []
            then Some(ASSISTANT_TAIL) else None
    ensures error.Some? ==>
      agent.State() == old(agent.State()) && agent.mon == old(agent.mon) && agent.log == old(agent.log)
    ensures error.None? ==>
      && RanFrom(agent.tools, script, ContinueStart(true, old(StartOf(agent, false))), old(agent.log), agent.log)
      && RunGave(agent.tools, script, aborted, old(agent.mon), agent.mon)
    ensures AtRest(agent) && old(agent.mon).history <= agent.mon.history
    ensures error.None? ==>
      ServedFirst(old(agent.mon), old(agent.steeringQueue.messages), old(agent.followUpQueue.messages), agent.mon)
  {
    var steering := agent.BeginFromSteering();
    if steering != [] {
      CompleteRun(agent, base, steering, true, script, aborted, old(agent.mon), old(agent.log));
      assert steering <= old(agent.steeringQueue.messages) && RanWith(old(agent.mon), Steering, steering, agent.mon);
      return None;
    }
    var followUps := agent.BeginFromFollowUps();
    if followUps != [] {
      CompleteRun(agent, base, followUps, false, script, aborted, old(agent.mon), old(agent.log));
      assert followUps <= old(agent.followUpQueue.messages) && RanWith(old(agent.mon), FollowUp, followUps, agent.mon);
      return None;
    }
    return Some(ASSISTANT_TAIL);
  }

  // ----- Whole sessions -----

  datatype Operation =
    | SteerWith(message: Message)
    | FollowUpBy(message: Message)
    | PromptWith(prompts: seq<Message>, script: RunScript, aborted: bool)
    | ContinueWith(script: RunScript, aborted: bool)

  /** The environment of an operation keeps its side of the contract. */
  ghost predicate Agreed(tools: seq<Tool>, op: Operation) {
    match op
    case PromptWith(_, script, _) => Contract(tools, script)
    case ContinueWith(script, _) => Contract(tools, script)
    case _ => true
  }

  /** Each run of a log, at the moment it was finished. */
  ghost predicate EveryRunSound(initial: seq<Message>, log: seq<Action>) {
    forall k :: 0 < k <= |log| && log[k - 1].Settle? ==> RunSound(initial, log[..k])
  }

  ghost predicate RunSound(initial: seq<Message>, log: seq<Action>) {
    && Track(initial, log).Some?
    && var run := Track(initial, log).value.run;
       && (RunFrame(log) == Some(Between) <==> !run.unframed)
       && (MessageBracket(log) == Some(false) <==> !run.torn)
       && Turns(log) <= 1 + Continuing(log) + Drains(log)
  }

  lemma RunsAreSound(initial: seq<Message>, log: seq<Action>)
    requires Track(initial, log).Some?
    ensures EveryRunSound(initial, log)
  {
    forall k | 0 < k <= |log| && log[k - 1].Settle? ensures RunSound(initial, log[..k]) {
      PrefixesAccepted(initial, log, k);
      SettledIsIdle(initial, log[..k]);
      IdleShowsFlaws(initial, log[..k]);
    }
  }

  lemma SettledIsIdle(initial: seq<Message>, log: seq<Action>)
    requires log != [] && log[|log| - 1].Settle? && Track(initial, log).Some?
    ensures Track(initial, log).value.phase.Idle?
  {
  }

  /** What holds between any two operations of any session. */
  ghost predicate Sound(agent: Agent)
    reads agent, agent.steeringQueue, agent.followUpQueue
  {
    var log, history := agent.log, agent.mon.history;
    && AtRest(agent)
    && Track(agent.initial, log) == Some(agent.mon)
    // transcript
    && agent.messages == Contents(history)
    // conservation, per queue and in order
    && Enqueued(Steering, log) == DeliveredFrom(Steering, history) + agent.steeringQueue.messages
    && Enqueued(FollowUp, log) == DeliveredFrom(FollowUp, history) + agent.followUpQueue.messages
    // pacing
    && (agent.steeringQueue.mode == OneAtATime ==> Spaced(history))
    // tool brackets
    && (forall id :: ToolStarts(id, log) == ToolEnds(id, log))
    // grammar, message brackets and turn bound of every run
    && EveryRunSound(agent.initial, log)
  }

  lemma RestIsSound(agent: Agent)
    requires AtRest(agent)
    ensures Sound(agent)
  {
    var log, initial := agent.log, agent.initial;
    assert agent.ExplainedBy(log);
    TranscriptIsHistory(agent);
    QueueConservation(Steering, initial, log, agent.steeringQueue.View());
    QueueConservation(FollowUp, initial, log, agent.followUpQueue.View());
    if agent.steeringQueue.mode == OneAtATime {
      OneSteerPerReply(initial, log);
    }
    forall id ensures ToolStarts(id, log) == ToolEnds(id, log) {
      ToolBrackets(initial, log, id);
    }
    RunsAreSound(initial, log);
  }

  /** What every operation of a session is performed with. */
  datatype Setting = Setting(initial: seq<Message>, tools: seq<Tool>, steeringMode: QueueMode, followUpMode: QueueMode)

  /** How many messages wait in a queue, as the log tells. */
  function Queued(s: Source, log: seq<Action>): nat {
    if |Enqueued(s, log)| < |Taken(s, log)| then 0 else |Enqueued(s, log)| - |Taken(s, log)|
  }

  /** What a run starts with that begins after this log. */
  function StartAfter(c: Setting, log: seq<Action>): Start {
    Start(Queued(Steering, log), Queued(FollowUp, log), false, c.steeringMode, c.followUpMode)
  }

  lemma StartIs(agent: Agent, c: Setting)
    requires agent.Valid()
    requires c.steeringMode == agent.steeringQueue.mode && c.followUpMode == agent.followUpQueue.mode
    ensures StartOf(agent, false) == StartAfter(c, agent.log)
  {
    assert agent.ExplainedBy(agent.log);
    assert |Enqueued(Steering, agent.log)| == |Taken(Steering, agent.log)| + |agent.steeringQueue.messages|;
    assert |Enqueued(FollowUp, agent.log)| == |Taken(FollowUp, agent.log)| + |agent.followUpQueue.messages|;
  }

  /** What one operation does to the log: it queues its message, or is a whole run, or is refused. */
  ghost predicate OpReport(c: Setting, op: Operation, log: seq<Action>, log': seq<Action>) {
    match op
    case SteerWith(message) => log' == log + [Enqueue(Steering, message)]
    case FollowUpBy(message) => log' == log + [Enqueue(FollowUp, message)]
    case PromptWith(prompts, script, aborted) =>
      && RanFrom(c.tools, script, StartAfter(c, log), log, log') && RunAdded(c, script, aborted, log, log')
      && RanWith(Track(c.initial, log).value, Caller, prompts, Track(c.initial, log').value)
    case ContinueWith(script, aborted) =>
      if NothingToContinue(c.initial, log) then log' == log
      else
        var afterReply := EndsWithReply(Replay(c.initial, log).messages);
        && RanFrom(c.tools, script, ContinueStart(afterReply, StartAfter(c, log)), log, log')
        && RunAdded(c, script, aborted, log, log')
  }

  /** What the run between two logs added to the transcript. */
  ghost predicate RunAdded(c: Setting, script: RunScript, aborted: bool, log: seq<Action>, log': seq<Action>) {
    && Track(c.initial, log).Some? && Track(c.initial, log').Some?
    && RunGave(c.tools, script, aborted, Track(c.initial, log).value, Track(c.initial, log').value)
  }

  /** The transcript is empty, or ends with an assistant message while all that was queued has been taken. */
  ghost predicate NothingToContinue(initial: seq<Message>, log: seq<Action>) {
    var messages := Replay(initial, log).messages;
    || messages == []
    || (EndsWithReply(messages)
        && Enqueued(Steering, log) == Taken(Steering, log) && Enqueued(FollowUp, log) == Taken(FollowUp, log))
  }

  lemma NothingToContinueIs(agent: Agent)
    requires agent.Valid()
    ensures NothingToContinue(agent.initial, agent.log)
       <==> || agent.messages == []
            || (EndsWithReply(agent.messages)
                && agent.steeringQueue.messages == [] && agent.followUpQueue.messages == [])
  {
    assert agent.ExplainedBy(agent.log);
    var log := agent.log;
    assert |Enqueued(Steering, log)| == |Taken(Steering, log)| + |agent.steeringQueue.messages|;
    assert |Enqueued(FollowUp, log)| == |Taken(FollowUp, log)| + |agent.followUpQueue.messages|;
  }

  /** The messages an operation gives to a queue, itself or by what arrives during its run. */
  function Given(s: Source, op: Operation, log: seq<Action>, log': seq<Action>): seq<Message> {
    match op
    case SteerWith(message) => if s == Steering then [message] else []
    case FollowUpBy(message) => if s == FollowUp then [message] else []
    case PromptWith(_, script, _) => ArrivedFor(s, script, Polls(log'))
    case ContinueWith(script, _) => if log' == log then [] else ArrivedFor(s, script, Polls(log'))
  }

  function ArrivedFor(s: Source, script: RunScript, polls: nat): seq<Message> {
    match s
    case Steering => Arrived(script.steered, polls)
    case FollowUp => Arrived(script.followed, polls)
    case Caller => []
  }

  /** The messages the first `n` operations give to a queue, in order; `logs[i]` is the log after `i` operations. */
  function GivenBy(s: Source, ops: seq<Operation>, logs: seq<seq<Action>>, n: nat): seq<Message>
    requires n <= |ops| && n < |logs|
  {
    if n == 0 then [] else GivenBy(s, ops, logs, n - 1) + Given(s, ops[n - 1], logs[n - 1], logs[n])
  }

  /** The log of a session, operation by operation. */
  ghost predicate Reported(c: Setting, ops: seq<Operation>, logs: seq<seq<Action>>, n: nat) {
    && n <= |ops| && |logs| == n + 1 && logs[0] == []
    && (forall i :: 0 <= i < n ==> OpReport(c, ops[i], logs[i], logs[i + 1]))
    && Enqueued(Steering, logs[n]) == GivenBy(Steering, ops, logs, n)
    && Enqueued(FollowUp, logs[n]) == GivenBy(FollowUp, ops, logs, n)
  }

  lemma {:induction false} GivenBySame(s: Source, ops: seq<Operation>, logs: seq<seq<Action>>, log: seq<Action>, n: nat)
    requires n <= |ops| && n < |logs|
    ensures GivenBy(s, ops, logs + [log], n) == GivenBy(s, ops, logs, n)
  {
    if n > 0 {
      GivenBySame(s, ops, logs, log, n - 1);
    }
  }

  lemma ReportIsGiven(c: Setting, op: Operation, log: seq<Action>, log': seq<Action>)
    requires OpReport(c, op, log, log')
    ensures Enqueued(Steering, log') == Enqueued(Steering, log) + Given(Steering, op, log, log')
    ensures Enqueued(FollowUp, log') == Enqueued(FollowUp, log) + Given(FollowUp, op, log, log')
  {
    match op {
      case SteerWith(message) =>
        EnqueuedStep(Steering, log, Enqueue(Steering, message));
        EnqueuedStep(FollowUp, log, Enqueue(Steering, message));
      case FollowUpBy(message) =>
        EnqueuedStep(Steering, log, Enqueue(FollowUp, message));
        EnqueuedStep(FollowUp, log, Enqueue(FollowUp, message));
      case _ =>
    }
  }

  lemma ReportedStep(c: Setting, ops: seq<Operation>, logs: seq<seq<Action>>, n: nat, log: seq<Action>)
    requires n < |ops| && Reported(c, ops, logs, n) && OpReport(c, ops[n], logs[n], log)
    ensures Reported(c, ops, logs + [log], n + 1)
  {
    ReportIsGiven(c, ops[n], logs[n], log);
    GivenBySame(Steering, ops, logs, log, n);
    GivenBySame(FollowUp, ops, logs, log, n);
  }

  ghost predicate PerformedWith(agent: Agent, c: Setting) {
    && agent.initial == c.initial && agent.tools == c.tools
    && agent.steeringQueue.mode == c.steeringMode && agent.followUpQueue.mode == c.followUpMode
  }

  method PerformPrompt(agent: Agent, ghost c: Setting, prompts: seq<Message>, script: RunScript, aborted: bool)
    requires AtRest(agent) && Contract(agent.tools, script) && PerformedWith(agent, c)
    modifies agent, agent.steeringQueue, agent.followUpQueue
    ensures AtRest(agent) && OpReport(c, PromptWith(prompts, script, aborted), old(agent.log), agent.log)
    ensures old(agent.mon).history <= agent.mon.history
  {
    StartIs(agent, c);
    assert agent.ExplainedBy(agent.log);
    var _ := Prompt(agent, prompts, script, aborted);
    assert agent.ExplainedBy(agent.log);
  }

  method PerformContinue(agent: Agent, ghost c: Setting, script: RunScript, aborted: bool)
    requires AtRest(agent) && Contract(agent.tools, script) && PerformedWith(agent, c)
    modifies agent, agent.steeringQueue, agent.followUpQueue
    ensures AtRest(agent) && OpReport(c, ContinueWith(script, aborted), old(agent.log), agent.log)
    ensures old(agent.mon).history <= agent.mon.history
  {
    StartIs(agent, c);
    NothingToContinueIs(agent);
    assert agent.ExplainedBy(agent.log);
    var _ := Continue(agent, script, aborted);
    assert agent.ExplainedBy(agent.log);
  }

  /** One operation on an agent at rest. */
  method Perform(agent: Agent, ghost c: Setting, op: Operation)
    requires AtRest(agent) && PerformedWith(agent, c) && Agreed(agent.tools, op)
    modifies agent, agent.steeringQueue, agent.followUpQueue
    ensures AtRest(agent) && OpReport(c, op, old(agent.log), agent.log)
    ensures old(agent.mon).history <= agent.mon.history
  {
    match op {
      case SteerWith(message) =>
        agent.Steer(message);
      case FollowUpBy(message) =>
        agent.FollowUpWith(message);
      case PromptWith(prompts, script, aborted) =>
        PerformPrompt(agent, c, prompts, script, aborted);
      case ContinueWith(script, aborted) =>
        PerformContinue(agent, c, script, aborted);
    }
  }

  /**
   * Any session: any operations in any order, whatever the model, the tools, the hooks and the arrivals do. The log is
   * made of the operations' reports; so what was enqueued are the operations' messages and the arrivals during their
   * runs, in order, and by conservation all of it is in the transcript or still queued.
   */
  method Session(initial: seq<Message>, tools: seq<Tool>, sequentialTools: bool,
                 steeringMode: QueueMode, followUpMode: QueueMode, ops: seq<Operation>)
    returns (agent: Agent, ghost logs: seq<seq<Action>>)
    requires forall i :: 0 <= i < |ops| ==> Agreed(tools, ops[i])
    ensures PerformedWith(agent, Setting(initial, tools, steeringMode, followUpMode))
    ensures Sound(agent) && initial <= agent.messages
    ensures Reported(Setting(initial, tools, steeringMode, followUpMode), ops, logs, |ops|) && logs[|ops|] == agent.log
  {
    ghost var c := Setting(initial, tools, steeringMode, followUpMode);
    agent := new Agent(initial, tools, sequentialTools, steeringMode, followUpMode);
    logs := [[]];
    for i := 0 to |ops|
      invariant PerformedWith(agent, c) && AtRest(agent) && AsHistory(initial) <= agent.mon.history
      invariant fresh(agent) && fresh(agent.steeringQueue) && fresh(agent.followUpQueue)
      invariant Reported(c, ops, logs, i) && logs[i] == agent.log
    {
      Perform(agent, c, ops[i]);
      ReportedStep(c, ops, logs, i, agent.log);
      logs := logs + [agent.log];
    }
    RestIsSound(agent);
  }

  // ----- Runs that go wrong -----

  function SameTurns(turn: TurnScript): RunScript {
    RunScript((t: nat) => turn, (k: nat) => [], (k: nat) => [])
  }

  const PLAIN := AssistantMessage([Text("done")], Stop, None)

  function Nothing(): Behaviour {
    Behaviour(Returns(""), NoBefore, false, [], Returns(ToolOutput("", "", None)), NoAfter, false)
  }

  lemma PlainCalls()
    ensures ToolCalls(PLAIN.content) == []
  {
    assert PLAIN.content[1..] == [];
  }

  lemma SameTurnsContract(tools: seq<Tool>, turn: TurnScript)
    requires turn.stream.final == PLAIN && Starts(turn.stream.events) <= 1
    ensures Contract(tools, SameTurns(turn))
  {
    PlainCalls();
    assert CalmFrom(tools, SameTurns(turn), 0);
  }

  /** A hook that throws after the first turn: the failure is reported outside a turn. */
  method HookThrowUnframes(prompt: Message) returns (agent: Agent)
    ensures AtRest(agent) && RunFrame(agent.log) != Some(Between)
  {
    var turn := TurnScript(StreamScript(None, [], Terminal, PLAIN), (i: nat) => Nothing(), HookThrows("hook"));
    agent := new Agent([], [], false, OneAtATime, OneAtATime);
    SameTurnsContract(agent.tools, turn);
    ghost var start := StartOf(agent, false);
    var _ := Prompt(agent, [prompt], SameTurns(turn), false);
    assert EndsWith(agent.tools, SameTurns(turn), start, 0);
    ScriptForetells(agent.tools, SameTurns(turn), start, agent.log, 0);
  }

  /** One turn, then another that only a steering message leads to, which arrives during the first. */
  function SteeredOnce(first: TurnScript, second: TurnScript, steered: Message): RunScript {
    RunScript(
      (t: nat) => if t == 0 then first else second,
      (k: nat) => if k == 1 then [steered] else [],
      (k: nat) => [])
  }

  lemma SteeredOnceContract(tools: seq<Tool>, first: TurnScript, second: TurnScript, steered: Message)
    requires first.stream.final == second.stream.final == PLAIN
    requires Starts(first.stream.events) <= 1 && Starts(second.stream.events) <= 1
    ensures Contract(tools, SteeredOnce(first, second, steered))
  {
    PlainCalls();
    assert CalmFrom(tools, SteeredOnce(first, second, steered), 2);
  }

  lemma SteeredOnceEnds(tools: seq<Tool>, first: TurnScript, second: TurnScript, steered: Message, start: Start)
    requires start == Start(0, 0, false, start.steeringMode, start.followUpMode)
    requires EndingOf(first).WentOn? && !EndingOf(second).WentOn?
    ensures EndsWith(tools, SteeredOnce(first, second, steered), start, 1)
  {
    var script := SteeredOnce(first, second, steered);
    assert Forecast(tools, script, start, 0) == Some(Standing(1, 0, 0, 0));
    assert PollSteeringFrom(start, script, Standing(1, 0, 0, 0)).held == 1;
    assert Forecast(tools, script, start, 1).Some?;
  }

  /** A steering message that arrives during the first turn leads to a second one, whose hook throws. */
  method SteeredThrowUnframes(prompt: Message, steered: Message) returns (agent: Agent)
    ensures AtRest(agent) && Turns(agent.log) == 2 && RunFrame(agent.log) != Some(Between)
  {
    var stream := StreamScript(None, [], Terminal, PLAIN);
    var first := TurnScript(stream, (i: nat) => Nothing(), GoOn);
    var second := TurnScript(stream, (i: nat) => Nothing(), HookThrows("hook"));
    var script := SteeredOnce(first, second, steered);
    agent := new Agent([], [], false, OneAtATime, OneAtATime);
    ghost var start := StartOf(agent, false);
    SteeredOnceContract(agent.tools, first, second, steered);
    SteeredOnceEnds(agent.tools, first, second, steered, start);
    var _ := Prompt(agent, [prompt], script, false);
    ScriptForetells(agent.tools, script, start, agent.log, 1);
  }

  /** A stream that breaks after its start: the failure message opens inside the reply. */
  method BrokenReplyTears(prompt: Message) returns (agent: Agent)
    ensures AtRest(agent) && MessageBracket(agent.log) != Some(false)
  {
    var events := [Opened(PLAIN)];
    assert Starts(events) == 1 by {
      assert events[..0] == [];
    }
    var turn := TurnScript(StreamScript(None, events, Broken("gone"), PLAIN), (i: nat) => Nothing(), GoOn);
    agent := new Agent([], [], false, OneAtATime, OneAtATime);
    SameTurnsContract(agent.tools, turn);
    ghost var start := StartOf(agent, false);
    var _ := Prompt(agent, [prompt], SameTurns(turn), false);
    assert EndsWith(agent.tools, SameTurns(turn), start, 0);
    ScriptForetells(agent.tools, SameTurns(turn), start, agent.log, 0);
  }
}
