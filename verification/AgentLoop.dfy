/** The agent loop: the two nested loops around the turns of a run. */
module AgentLoop {
  import opened Common
  import opened AgentTypes
  import opened ToolOutcome
  import opened Protocol
  import opened ProtocolFacts
  import opened AgentHost
  import opened AgentTurn
  import opened RunForecast

  // ----- The nested loops -----

  /** Deliver the held messages and enter them in both of the loop's records. */
  method InjectPending(agent: Agent, context: AgentContext, newMessages: seq<Message>, pending: seq<Message>)
    returns (newMessages': seq<Message>)
    requires InSync(agent, context, newMessages)
    requires agent.mon.phase == Injecting(None) && agent.mon.pending == pending
    modifies agent, context
    ensures InSync(agent, context, newMessages') && Silent(old(agent.log), agent.log)
    ensures var m := old(agent.mon);
            agent.mon == m.(pending := [], history := m.history + Injected(m.source, pending))
  {
    ghost var m := agent.mon;
    InjectAll(agent, pending);
    context.messages := context.messages + pending;
    newMessages' := newMessages + pending;
    ContentsConcat(m.history, Injected(m.source, pending));
    assert Contents(Injected(m.source, pending)) == pending;
  }

  /** Where the loop stands when it decides about another turn: it has polled, and holds `pending`. */
  ghost predicate Deciding(m: Monitor, firstTurn: bool, hasMore: bool, pending: seq<Message>) {
    && m.pending == pending && m.polledOnce
    && if firstTurn then m.phase == Injecting(None) && hasMore
       else m.phase == Polled(hasMore) || (m.phase == Drained && pending != [])
  }

  /** The turn number, with the first one already open. */
  function TurnsWith(run: RunView, firstTurn: bool): RunView {
    if firstTurn then run else run.(turns := run.turns + 1)
  }

  /** One pass of the inner loop up to its hooks. */
  method TakeTurn(agent: Agent, context: AgentContext, newMessages: seq<Message>, pending: seq<Message>,
                  firstTurn: bool, ghost hasMore: bool, turn: TurnScript)
    returns (newMessages': seq<Message>, outcome: TurnOutcome)
    requires InSync(agent, context, newMessages) && Deciding(agent.mon, firstTurn, hasMore, pending)
    requires (hasMore || pending != []) && Starts(turn.stream.events) <= 1
    modifies agent, context
    ensures agent.Valid() && agent.activeRun && Silent(old(agent.log), agent.log)
    ensures TurnEnded(agent, context, newMessages', turn, outcome)
    ensures var m := old(agent.mon);
            agent.mon == m.(phase := agent.mon.phase, pending := [], run := TurnsWith(m.run, firstTurn),
                            history := m.history + Injected(m.source, pending) + TurnDeliveries(agent.tools, turn))
  {
    StartTurn(agent, pending, firstTurn, hasMore);
    newMessages' := InjectPending(agent, context, newMessages, pending);
    newMessages', outcome := RunTurn(agent, context, newMessages', turn);
  }

  /** turn_start, except for the first turn of a run, which is open already. */
  method StartTurn(agent: Agent, ghost pending: seq<Message>, firstTurn: bool, ghost hasMore: bool)
    requires agent.Valid() && agent.activeRun && Deciding(agent.mon, firstTurn, hasMore, pending)
    requires hasMore || pending != []
    modifies agent
    ensures agent.Valid() && agent.activeRun && Silent(old(agent.log), agent.log)
    ensures agent.mon == old(agent.mon).(phase := Injecting(None), run := TurnsWith(old(agent.mon).run, firstTurn))
  {
    if !firstTurn {
      agent.ProcessEvents(TurnStart);
    }
  }

  /** The loop is over: normally, or by throwing. */
  ghost predicate LoopOver(agent: Agent, thrown: Option<string>)
    reads agent, agent.steeringQueue, agent.followUpQueue
  {
    && agent.Valid() && agent.activeRun && agent.mon.pending == []
    && agent.mon.phase == if thrown.Some? then Failing(0, None) else Finished
  }

  method EndLoop(agent: Agent, context: AgentContext, newMessages: seq<Message>)
    requires InSync(agent, context, newMessages) && MayEnd(agent.mon) && agent.mon.pending == []
    modifies agent
    ensures LoopOver(agent, None) && Silent(old(agent.log), agent.log)
    ensures agent.mon == old(agent.mon).(phase := Finished)
  {
    agent.ProcessEvents(AgentEnd(newMessages));
  }

  /** A turn that does not go on ends the loop. */
  method Conclude(agent: Agent, context: AgentContext, newMessages: seq<Message>, ghost turn: TurnScript,
                  outcome: TurnOutcome)
    returns (thrown: Option<string>)
    requires agent.Valid() && agent.activeRun && agent.mon.pending == []
    requires TurnEnded(agent, context, newMessages, turn, outcome) && !EndingOf(turn).WentOn?
    modifies agent
    ensures LoopOver(agent, thrown) && Silent(old(agent.log), agent.log)
    ensures thrown == ThrownBy(turn)
    ensures agent.mon == if thrown.Some? then AfterFail(old(agent.mon)) else old(agent.mon).(phase := Finished)
    ensures thrown.Some? ==>
      && (old(agent.mon).phase.Streaming? <==> EndingOf(turn) == ThrewMidReply)
      && (OutsideTurn(old(agent.mon).phase) <==> EndingOf(turn) == HookThrew)
  {
    if outcome.TurnThrew? {
      agent.Note(Fail);
      return Some(outcome.message);
    }
    EndLoop(agent, context, newMessages);
    return None;
  }

  // ----- A run under way -----

  /** Where a run comes from: the monitor and the log when its loop began, and what it started with. */
  datatype Origins = Origins(m: Monitor, log: seq<Action>, start: Start)

  /**
   * Everything enqueued since the loop began are the arrivals before the polls made so far. The quantifier keeps it
   * folded: it is looked into only where `Arrived` is mentioned.
   */
  ghost predicate Accounted(o: Origins, script: RunScript, polls: nat, log: seq<Action>) {
    forall n: nat {:trigger Arrived(script.steered, n)} :: n == polls ==>
      Received(o.log, log, Arrived(script.steered, n), Arrived(script.followed, n))
  }

  ghost function StandingOf(agent: Agent, pending: seq<Message>): Standing
    reads agent, agent.steeringQueue, agent.followUpQueue
  {
    Standing(agent.mon.run.polls, |pending|, |agent.steeringQueue.messages|, |agent.followUpQueue.messages|)
  }

  ghost predicate SameModes(agent: Agent, start: Start) {
    start.steeringMode == agent.steeringQueue.mode && start.followUpMode == agent.followUpQueue.mode
  }

  /** The run so far, after `t` turns: records in agreement, and everything received and gained accounted for. */
  ghost predicate RunSoFar(agent: Agent, context: AgentContext, newMessages: seq<Message>, o: Origins,
                           script: RunScript, t: nat)
    reads agent, agent.steeringQueue, agent.followUpQueue, context
  {
    && InSync(agent, context, newMessages) && Further(o.m, agent.mon) && SameModes(agent, o.start)
    && Accounted(o, script, agent.mon.run.polls, agent.log)
    && AllWentOn(script, t) && Gained(o.m.history, agent.tools, script, t, agent.mon.history)
  }

  /** The loop after `t` turns, about to decide, where the forecast says it stands. */
  ghost predicate Going(agent: Agent, context: AgentContext, newMessages: seq<Message>, o: Origins, script: RunScript,
                        t: nat, firstTurn: bool, hasMore: bool, pending: seq<Message>)
    reads agent, agent.steeringQueue, agent.followUpQueue, context
  {
    var run := agent.mon.run;
    && RunSoFar(agent, context, newMessages, o, script, t)
    && Deciding(agent.mon, firstTurn, hasMore, pending)
    && run == RunView(if firstTurn then 1 else t, run.polls, false, false) && t < run.polls && (firstTurn ==> t == 0)
    && Foreseen(agent.tools, script, o.start, t, hasMore, StandingOf(agent, pending))
  }

  /** What a run leaves behind when its loop is over. */
  ghost predicate RunDone(agent: Agent, o: Origins, script: RunScript, thrown: Option<string>)
    reads agent, agent.steeringQueue, agent.followUpQueue
  {
    && LoopOver(agent, thrown) && Further(o.m, agent.mon)
    && RunEnded(agent.tools, script, agent.mon.run, thrown)
    && EndForeseen(agent.tools, script, o.start, agent.mon.run.turns)
    && Gained(o.m.history, agent.tools, script, agent.mon.run.turns, agent.mon.history)
    && Accounted(o, script, agent.mon.run.polls, agent.log)
  }

  /** What the loop may still have to deliver. */
  ghost function Weight(agent: Agent, pending: seq<Message>): nat
    reads agent.steeringQueue, agent.followUpQueue
  {
    |pending| + |agent.steeringQueue.messages| + |agent.followUpQueue.messages|
  }

  /** The messages that arrived before the next poll are queued. */
  method Arrive(agent: Agent, script: RunScript, p: nat, ghost o: Origins)
    requires agent.Valid() && Accounted(o, script, p, agent.log)
    modifies agent`log, agent`mon, agent.steeringQueue, agent.followUpQueue
    ensures agent.Valid() && agent.mon == old(agent.mon)
    ensures Accounted(o, script, p + 1, agent.log)
    ensures agent.steeringQueue.messages == old(agent.steeringQueue.messages) + script.steered(p)
    ensures agent.followUpQueue.messages == old(agent.followUpQueue.messages) + script.followed(p)
  {
    ghost var log := agent.log;
    agent.Receive(script.steered(p), script.followed(p));
    AccountedNext(o, script, p, log, agent.log);
  }

  lemma AccountedNext(o: Origins, script: RunScript, p: nat, log: seq<Action>, log': seq<Action>)
    requires Accounted(o, script, p, log) && Received(log, log', script.steered(p), script.followed(p))
    ensures Accounted(o, script, p + 1, log')
  {
    assert Received(o.log, log, Arrived(script.steered, p), Arrived(script.followed, p));
    assert Arrived(script.steered, p + 1) == Arrived(script.steered, p) + script.steered(p);
    assert Arrived(script.followed, p + 1) == Arrived(script.followed, p) + script.followed(p);
  }

  lemma StillAccounted(o: Origins, script: RunScript, polls: nat, log: seq<Action>, log': seq<Action>)
    requires Accounted(o, script, polls, log) && Silent(log, log')
    ensures Accounted(o, script, polls, log')
  {
  }

  /** New arrivals, then a poll of the steering queue. */
  method TapSteering(agent: Agent, script: RunScript, p: nat, ghost o: Origins) returns (pending: seq<Message>)
    requires agent.Valid() && agent.activeRun && SteeringDue(agent.mon, false) && SameModes(agent, o.start)
    requires p == agent.mon.run.polls && Accounted(o, script, p, agent.log)
    modifies agent`log, agent`mon, agent.steeringQueue, agent.followUpQueue
    ensures agent.Valid() && agent.mon == AfterPoll(old(agent.mon), Steering, pending)
    ensures Accounted(o, script, p + 1, agent.log)
    ensures StandingOf(agent, pending) == PollSteeringFrom(o.start, script, old(StandingOf(agent, [])))
  {
    Arrive(agent, script, p, o);
    ghost var log := agent.log;
    pending := agent.GetSteeringMessages(false);
    StillAccounted(o, script, p + 1, log, agent.log);
  }

  /** New arrivals, then a poll of the follow-up queue. */
  method TapFollowUps(agent: Agent, script: RunScript, p: nat, ghost o: Origins) returns (pending: seq<Message>)
    requires agent.Valid() && agent.activeRun && agent.mon.phase == Polled(false) && agent.mon.pending == []
    requires p == agent.mon.run.polls && Accounted(o, script, p, agent.log) && SameModes(agent, o.start)
    modifies agent`log, agent`mon, agent.steeringQueue, agent.followUpQueue
    ensures agent.Valid() && agent.mon == AfterPoll(old(agent.mon), FollowUp, pending)
    ensures Accounted(o, script, p + 1, agent.log)
    ensures StandingOf(agent, pending) == PollFollowUpsFrom(o.start, script, old(StandingOf(agent, [])))
  {
    Arrive(agent, script, p, o);
    ghost var log := agent.log;
    pending := agent.GetFollowUpMessages();
    StillAccounted(o, script, p + 1, log, agent.log);
  }

  /** The poll after a turn that went on. */
  method PollSteering(agent: Agent, context: AgentContext, newMessages: seq<Message>, ghost o: Origins,
                      script: RunScript, ghost t: nat, p: nat, ghost more: bool)
    returns (pending: seq<Message>)
    requires RunSoFar(agent, context, newMessages, o, script, t)
    requires agent.mon.phase == Hooked(more) && agent.mon.pending == [] && agent.mon.polledOnce
    requires agent.mon.run == RunView(t, p, false, false) && t <= p
    requires Foreseen(agent.tools, script, o.start, t, more, PollSteeringFrom(o.start, script, StandingOf(agent, [])))
    modifies agent, agent.steeringQueue, agent.followUpQueue
    ensures Going(agent, context, newMessages, o, script, t, false, more, pending)
    ensures agent.mon.run.polls == p + 1 && agent.mon.phase.Polled?
    ensures Weight(agent, pending) == old(Weight(agent, [])) + |script.steered(p)| + |script.followed(p)|
  {
    pending := TapSteering(agent, script, p, o);
  }

  /** The run ends with turn `t`. */
  method EndAt(agent: Agent, context: AgentContext, newMessages: seq<Message>, ghost o: Origins,
               ghost script: RunScript, ghost t: nat, ghost p: nat, outcome: TurnOutcome)
    returns (thrown: Option<string>)
    requires agent.Valid() && agent.activeRun && agent.mon.pending == [] && Further(o.m, agent.mon)
    requires TurnEnded(agent, context, newMessages, script.turns(t), outcome) && !EndingOf(script.turns(t)).WentOn?
    requires agent.mon.run == RunView(t + 1, p, false, false) && p > 0 && AllWentOn(script, t)
    requires Gained(o.m.history, agent.tools, script, t + 1, agent.mon.history)
    requires Accounted(o, script, p, agent.log) && EndForeseen(agent.tools, script, o.start, t + 1)
    modifies agent
    ensures RunDone(agent, o, script, thrown)
  {
    ghost var m, log := agent.mon, agent.log;
    thrown := Conclude(agent, context, newMessages, script.turns(t), outcome);
    EndsHere(agent.tools, script, t, m, thrown);
    StillAccounted(o, script, p, log, agent.log);
  }

  /** One pass of the inner loop: to the next decision if its turn goes on, else to the end of the run. */
  method InnerPass(agent: Agent, context: AgentContext, newMessages: seq<Message>, ghost o: Origins, script: RunScript,
                   t: nat, p: nat, firstTurn: bool, ghost hasMore: bool, pending: seq<Message>)
    returns (newMessages': seq<Message>, over: bool, thrown: Option<string>, more: bool, pending': seq<Message>)
    requires Going(agent, context, newMessages, o, script, t, firstTurn, hasMore, pending)
    requires (hasMore || pending != []) && p == agent.mon.run.polls && Starts(script.turns(t).stream.events) <= 1
    modifies agent, context, agent.steeringQueue, agent.followUpQueue
    ensures over <==> !EndingOf(script.turns(t)).WentOn?
    ensures !over ==>
      && Going(agent, context, newMessages', o, script, t + 1, false, more, pending')
      && agent.mon.run.polls == p + 1 && agent.mon.phase.Polled?
      && (more <==> GoesOn(agent.tools, script.turns(t)))
      && Weight(agent, pending')
         == old(Weight(agent, pending)) - |pending| + |script.steered(p)| + |script.followed(p)|
    ensures over ==> RunDone(agent, o, script, thrown)
  {
    ghost var m, s := agent.mon, StandingOf(agent, pending);
    var outcome;
    newMessages', outcome := TakeTurn(agent, context, newMessages, pending, firstTurn, hasMore, script.turns(t));
    TurnAccounted(o, script, t, m, old(agent.log), agent.tools, pending, agent.mon, agent.log);
    over, thrown, more, pending' := AfterPass(agent, context, newMessages', o, script, t, p, hasMore, s, outcome);
  }

  /** After turn `t`: the next poll, or the end. */
  method AfterPass(agent: Agent, context: AgentContext, newMessages: seq<Message>, ghost o: Origins, script: RunScript,
                   ghost t: nat, p: nat, ghost hasMore: bool, ghost s: Standing, outcome: TurnOutcome)
    returns (over: bool, thrown: Option<string>, more: bool, pending: seq<Message>)
    requires agent.Valid() && agent.activeRun && TurnEnded(agent, context, newMessages, script.turns(t), outcome)
    requires agent.mon.pending == [] && agent.mon.polledOnce
    requires agent.mon.run == RunView(t + 1, p, false, false) && t < p
    requires Further(o.m, agent.mon) && SameModes(agent, o.start) && Accounted(o, script, p, agent.log)
    requires AllWentOn(script, t) && Gained(o.m.history, agent.tools, script, t + 1, agent.mon.history)
    requires Foreseen(agent.tools, script, o.start, t, hasMore, s) && (hasMore || s.held > 0)
    requires s.(held := 0) == StandingOf(agent, [])
    modifies agent, agent.steeringQueue, agent.followUpQueue
    ensures over <==> !EndingOf(script.turns(t)).WentOn?
    ensures !over ==>
      && Going(agent, context, newMessages, o, script, t + 1, false, more, pending)
      && agent.mon.run.polls == p + 1 && agent.mon.phase.Polled?
      && (more <==> GoesOn(agent.tools, script.turns(t)))
      && Weight(agent, pending) == old(Weight(agent, [])) + |script.steered(p)| + |script.followed(p)|
    ensures over ==> RunDone(agent, o, script, thrown)
  {
    pending, more, thrown := [], false, None;
    over := !(outcome.TurnDone? && !outcome.stop);
    if over {
      EndForeseenAt(agent.tools, script, o.start, t, hasMore, s);
      thrown := EndAt(agent, context, newMessages, o, script, t, p, outcome);
    } else {
      more := outcome.more;
      OneMoreWentOn(script, t);
      NextForeseen(agent.tools, script, o.start, t, hasMore, s);
      pending := PollSteering(agent, context, newMessages, o, script, t + 1, p, more);
    }
  }

  /** What one turn does to the accounts of a run. */
  lemma TurnAccounted(o: Origins, script: RunScript, t: nat, m: Monitor, log: seq<Action>, tools: seq<Tool>,
                      pending: seq<Message>, m': Monitor, log': seq<Action>)
    requires Further(o.m, m) && Accounted(o, script, m.run.polls, log) && Silent(log, log')
    requires Gained(o.m.history, tools, script, t, m.history)
    requires m'.history == m.history + Injected(m.source, pending) + TurnDeliveries(tools, script.turns(t))
    requires m'.runStart == m.runStart
    ensures Further(o.m, m') && Accounted(o, script, m.run.polls, log')
    ensures Gained(o.m.history, tools, script, t + 1, m'.history)
  {
    FurtherThan(o.m, m, m', Injected(m.source, pending), TurnDeliveries(tools, script.turns(t)));
    StillAccounted(o, script, m.run.polls, log, log');
    TurnsGiveStep(tools, script, t);
    GainedStep(o.m.history, tools, script, t, m.history, m.source, pending, TurnDeliveries(tools, script.turns(t)));
  }

  /**
   * The inner loop: turns, as long as tool batches go on or there are messages to deliver. Each pass uses up one of the
   * turns before the calm, or a message, or the last batch that went on.
   */
  method InnerLoop(agent: Agent, context: AgentContext, newMessages: seq<Message>, ghost o: Origins, script: RunScript,
                   ghost quiet: nat, t0: nat, p0: nat, firstTurn: bool, held: seq<Message>)
    returns (records: seq<Message>, over: bool, thrown: Option<string>, t: nat, p: nat, ghost last: nat)
    requires Going(agent, context, newMessages, o, script, t0, firstTurn, firstTurn, held)
    requires (firstTurn || held != []) && p0 == agent.mon.run.polls
    requires (forall i: nat :: Starts(script.turns(i).stream.events) <= 1) && CalmFrom(agent.tools, script, quiet)
    modifies agent, context, agent.steeringQueue, agent.followUpQueue
    ensures over ==> RunDone(agent, o, script, thrown)
    ensures !over ==>
      && Going(agent, context, records, o, script, t, false, false, []) && p == agent.mon.run.polls
      && agent.mon.phase.Polled? && t0 < t == last + 1 && !GoesOn(agent.tools, script.turns(last))
      && (quiet <= t0 ==> Weight(agent, []) <= old(Weight(agent, held)) - |held|)
  {
    last := t0;
    var hasMore, pending, first := true, held, firstTurn;
    records, over, thrown, t, p := newMessages, false, None, t0, p0;
    while hasMore || pending != []
      invariant p == agent.mon.run.polls
      invariant Going(agent, context, records, o, script, t, first, if t == t0 then firstTurn else hasMore, pending)
      invariant if t == t0
                then hasMore && pending == held && first == firstTurn && Weight(agent, held) == old(Weight(agent, held))
                else t0 < t && !first && agent.mon.phase.Polled? && t == last + 1
                     && (hasMore <==> GoesOn(agent.tools, script.turns(last)))
                     && (quiet <= t0 ==> Weight(agent, pending) <= old(Weight(agent, held)) - |held|)
      decreases Left(quiet, t), Weight(agent, pending), if hasMore then 1 else 0
    {
      if quiet <= t {
        CalmAt(agent.tools, script, quiet, t, p);
      }
      records, over, thrown, hasMore, pending :=
        InnerPass(agent, context, records, o, script, t, p, first, if t == t0 then firstTurn else hasMore, pending);
      if over {
        return;
      }
      last := t;
      first, t, p := false, t + 1, p + 1;
    }
  }

  /**
   * The main loop. It terminates because only finitely many tool batches go on and finitely many messages arrive. It
   * ends by emitting agent_end or by throwing; in both cases its log has been accepted action by action, no message
   * taken from a queue is left undelivered, and it made exactly the turns that were to be foreseen.
   */
  method RunLoop(agent: Agent, context: AgentContext, newMessages: seq<Message>, skipFirstPoll: bool, script: RunScript)
    returns (thrown: Option<string>)
    requires InSync(agent, context, newMessages) && Contract(agent.tools, script)
    requires agent.mon.phase == Injecting(None) && SteeringDue(agent.mon, skipFirstPoll)
    requires agent.mon.run == RunView(1, 0, false, false)
    modifies agent, context, agent.steeringQueue, agent.followUpQueue
    ensures RunDone(agent, Origins(old(agent.mon), old(agent.log), old(StartOf(agent, skipFirstPoll))), script, thrown)
  {
    ghost var o := Origins(agent.mon, agent.log, StartOf(agent, skipFirstPoll));
    ghost var quiet: nat :| CalmFrom(agent.tools, script, quiet);
    var pending := FirstPoll(agent, context, newMessages, skipFirstPoll, script);
    var records, firstTurn, t, p := newMessages, true, 0, 1;
    while true
      invariant Going(agent, context, records, o, script, t, firstTurn, firstTurn, pending)
      invariant (firstTurn || pending != []) && p == agent.mon.run.polls
      decreases Left(quiet, t), Weight(agent, pending), if firstTurn then 1 else 0
    {
      var over;
      ghost var last;
      records, over, thrown, t, p, last :=
        InnerLoop(agent, context, records, o, script, quiet, t, p, firstTurn, pending);
      if over {
        return;
      }
      firstTurn := false;
      pending := FollowUpsOrEnd(agent, context, records, o, script, quiet, t, p, last);
      if pending == [] {
        return None;
      }
      p := p + 1;
    }
  }

  ghost function StartOf(agent: Agent, skip: bool): Start
    reads agent.steeringQueue, agent.followUpQueue
  {
    Start(|agent.steeringQueue.messages|, |agent.followUpQueue.messages|, skip,
          agent.steeringQueue.mode, agent.followUpQueue.mode)
  }

  method FirstPoll(agent: Agent, context: AgentContext, newMessages: seq<Message>, skip: bool, script: RunScript)
    returns (pending: seq<Message>)
    requires InSync(agent, context, newMessages)
    requires agent.mon.phase == Injecting(None) && SteeringDue(agent.mon, skip)
    requires agent.mon.run == RunView(1, 0, false, false)
    modifies agent, agent.steeringQueue, agent.followUpQueue
    ensures Going(agent, context, newMessages, Origins(old(agent.mon), old(agent.log), old(StartOf(agent, skip))),
                  script, 0, true, true, pending)
    ensures agent.mon.run.polls == 1
  {
    ghost var o := Origins(agent.mon, agent.log, StartOf(agent, skip));
    FirstForeseen(agent.tools, script, o.start);
    Arrive(agent, script, 0, o);
    ghost var log := agent.log;
    pending := agent.GetSteeringMessages(skip);
    StillAccounted(o, script, 1, log, agent.log);
  }

  /** After the inner loop: the follow-up queue, whose messages start another pass of the outer loop. */
  method PollFollowUps(agent: Agent, context: AgentContext, newMessages: seq<Message>, ghost o: Origins,
                       script: RunScript, ghost t: nat, p: nat)
    returns (pending: seq<Message>)
    requires Going(agent, context, newMessages, o, script, t, false, false, []) && t > 0
    requires p == agent.mon.run.polls && agent.mon.phase.Polled?
    modifies agent, agent.steeringQueue, agent.followUpQueue
    ensures RunSoFar(agent, context, newMessages, o, script, t)
    ensures agent.mon.phase == Drained && agent.mon.pending == pending && agent.mon.polledOnce
    ensures agent.mon.run == RunView(t, p + 1, false, false)
    ensures if pending == [] then EndForeseen(agent.tools, script, o.start, t)
            else Foreseen(agent.tools, script, o.start, t, false, StandingOf(agent, pending))
    ensures Weight(agent, pending) == old(Weight(agent, [])) + |script.steered(p)| + |script.followed(p)|
  {
    FollowUpsForeseen(agent.tools, script, o.start, t, StandingOf(agent, []));
    pending := TapFollowUps(agent, script, p, o);
  }

  /** Nothing is left to do: the last turn went on, and both queues gave nothing. */
  method EndQuietly(agent: Agent, context: AgentContext, newMessages: seq<Message>, ghost o: Origins,
                    ghost script: RunScript, ghost t: nat, ghost last: nat)
    requires RunSoFar(agent, context, newMessages, o, script, t) && EndForeseen(agent.tools, script, o.start, t)
    requires agent.mon.phase == Drained && agent.mon.pending == [] && t == last + 1
    requires agent.mon.run == RunView(t, agent.mon.run.polls, false, false) && agent.mon.run.polls > 0
    requires !GoesOn(agent.tools, script.turns(last))
    modifies agent
    ensures RunDone(agent, o, script, None)
  {
    ghost var log := agent.log;
    RanOut(agent.tools, script, agent.mon.run, last);
    EndLoop(agent, context, newMessages);
    StillAccounted(o, script, agent.mon.run.polls, log, agent.log);
  }

  /** Follow-up messages start another pass of the outer loop; without any the run ends. */
  method FollowUpsOrEnd(agent: Agent, context: AgentContext, newMessages: seq<Message>, ghost o: Origins,
                        script: RunScript, ghost quiet: nat, ghost t: nat, p: nat, ghost last: nat)
    returns (pending: seq<Message>)
    requires CalmFrom(agent.tools, script, quiet)
    requires Going(agent, context, newMessages, o, script, t, false, false, [])
    requires t == last + 1 && !GoesOn(agent.tools, script.turns(last))
    requires p == agent.mon.run.polls && agent.mon.phase.Polled?
    modifies agent, agent.steeringQueue, agent.followUpQueue
    ensures pending == [] ==> RunDone(agent, o, script, None)
    ensures pending != [] ==>
      && Going(agent, context, newMessages, o, script, t, false, false, pending) && agent.mon.run.polls == p + 1
      && (quiet <= t ==> Weight(agent, pending) == old(Weight(agent, [])))
  {
    if quiet <= t {
      CalmAt(agent.tools, script, quiet, t, p);
    }
    pending := PollFollowUps(agent, context, newMessages, o, script, t, p);
    if pending == [] {
      EndQuietly(agent, context, newMessages, o, script, t, last);
    }
  }
}
