/**
 * Whole runs on paper: what a run is given, and what its script, the queues and their modes foretell of it, without the
 * run being made.
 */
module RunForecast {
  import opened Common
  import opened AgentTypes
  import opened ToolOutcome
  import opened Protocol
  import opened ProtocolFacts
  import opened AgentTurn

  /** The environment of a run: its turns, and the messages that arrive before each of its polls. */
  datatype RunScript = RunScript(turns: nat -> TurnScript, steered: nat -> seq<Message>, followed: nat -> seq<Message>)

  /** From turn `quiet` on no tool batch asks to go on and no message arrives. */
  ghost predicate CalmFrom(tools: seq<Tool>, script: RunScript, quiet: nat) {
    forall t: nat :: quiet <= t ==>
      && !GoesOn(tools, script.turns(t))
      && script.steered(t) == [] && script.followed(t) == []
  }

  /** Streams start at most once, and only finitely many batches go on and finitely many messages arrive. */
  ghost predicate Contract(tools: seq<Tool>, script: RunScript) {
    && (forall t: nat :: Starts(script.turns(t).stream.events) <= 1)
    && (exists quiet: nat :: CalmFrom(tools, script, quiet))
  }

  /** The messages that arrived before the first `n` polls. */
  function Arrived(arrivals: nat -> seq<Message>, n: nat): seq<Message> {
    if n == 0 then [] else Arrived(arrivals, n - 1) + arrivals(n - 1)
  }

  /** The first `n` turns went on. */
  ghost predicate AllWentOn(script: RunScript, n: nat) {
    forall j: nat :: j < n ==> EndingOf(script.turns(j)).WentOn?
  }

  /** What the first `n` turns add to the transcript. */
  function TurnsGive(tools: seq<Tool>, script: RunScript, n: nat): seq<Delivery> {
    if n == 0 then [] else TurnsGive(tools, script, n - 1) + TurnDeliveries(tools, script.turns(n - 1))
  }

  /**
   * Apart from prompts and queued messages, the transcript has gained exactly what the first `n` turns give. The
   * quantifier keeps it folded: it is looked into only where `TurnsGive` is mentioned.
   */
  ghost predicate Gained(h0: seq<Delivery>, tools: seq<Tool>, script: RunScript, n: nat, h: seq<Delivery>) {
    forall k: nat {:trigger TurnsGive(tools, script, k)} :: k == n ==>
      Unprompted(h) == Unprompted(h0) + TurnsGive(tools, script, k)
  }

  lemma Regrouped(a: seq<Delivery>, b: seq<Delivery>, c: seq<Delivery>)
    ensures a + (b + c) == a + b + c
  {
  }

  lemma GainedStep(h0: seq<Delivery>, tools: seq<Tool>, script: RunScript, t: nat, h: seq<Delivery>, source: Source,
                   messages: seq<Message>, own: seq<Delivery>)
    requires Gained(h0, tools, script, t, h) && TurnsGive(tools, script, t + 1) == TurnsGive(tools, script, t) + own
    requires forall i :: 0 <= i < |own| ==> !own[i].origin.From?
    ensures Gained(h0, tools, script, t + 1, h + Injected(source, messages) + own)
  {
    UnpromptedTurn(h, source, messages, own);
    Regrouped(Unprompted(h0), TurnsGive(tools, script, t), own);
  }

  lemma TurnsGiveStep(tools: seq<Tool>, script: RunScript, t: nat)
    ensures var own := TurnDeliveries(tools, script.turns(t));
            && TurnsGive(tools, script, t + 1) == TurnsGive(tools, script, t) + own
            && forall i :: 0 <= i < |own| ==> !own[i].origin.From?
  {
    TurnsAreUnprompted(tools, script.turns(t));
  }

  /** How a run ended: the script of the last turn it reached says whether it threw, and where. */
  ghost predicate RunEnded(tools: seq<Tool>, script: RunScript, run: RunView, thrown: Option<string>) {
    && run.turns > 0 && run.polls > 0
    && forall last: nat {:trigger EndedWith(tools, script, last, run, thrown)} :: run.turns == last + 1 ==>
         EndedWith(tools, script, last, run, thrown)
  }

  ghost predicate EndedWith(tools: seq<Tool>, script: RunScript, last: nat, run: RunView, thrown: Option<string>) {
    var turn := script.turns(last);
    && AllWentOn(script, last)
    && thrown == ThrownBy(turn)
    && (EndingOf(turn).WentOn? ==> !GoesOn(tools, turn))
    && (run.torn <==> EndingOf(turn) == ThrewMidReply)
    && (run.unframed <==> EndingOf(turn) == HookThrew)
  }

  lemma EndsHere(tools: seq<Tool>, script: RunScript, t: nat, m: Monitor, thrown: Option<string>)
    requires AllWentOn(script, t) && m.run == RunView(t + 1, m.run.polls, false, false) && m.run.polls > 0
    requires thrown == ThrownBy(script.turns(t)) && !EndingOf(script.turns(t)).WentOn?
    requires thrown.Some? ==>
      && (m.phase.Streaming? <==> EndingOf(script.turns(t)) == ThrewMidReply)
      && (OutsideTurn(m.phase) <==> EndingOf(script.turns(t)) == HookThrew)
    ensures RunEnded(tools, script, if thrown.Some? then AfterFail(m).run else m.run, thrown)
  {
  }

  lemma OneMoreWentOn(script: RunScript, t: nat)
    requires AllWentOn(script, t) && EndingOf(script.turns(t)).WentOn?
    ensures AllWentOn(script, t + 1)
  {
  }

  lemma RanOut(tools: seq<Tool>, script: RunScript, run: RunView, last: nat)
    requires AllWentOn(script, last + 1) && !GoesOn(tools, script.turns(last))
    requires run == RunView(last + 1, run.polls, false, false) && run.polls > 0
    ensures RunEnded(tools, script, run, None)
  {
    WentOnAt(script, last);
    EndedAt(tools, script, last, run, None);
  }

  lemma EndedAt(tools: seq<Tool>, script: RunScript, last: nat, run: RunView, thrown: Option<string>)
    requires EndedWith(tools, script, last, run, thrown) && run.turns == last + 1 && run.polls > 0
    ensures RunEnded(tools, script, run, thrown)
  {
  }

  lemma WentOnAt(script: RunScript, last: nat)
    requires AllWentOn(script, last + 1)
    ensures EndingOf(script.turns(last)).WentOn? && AllWentOn(script, last) && ThrownBy(script.turns(last)) == None
  {
  }

  ghost function Left(quiet: nat, t: nat): nat {
    if t < quiet then quiet - t else 0
  }

  lemma CalmAt(tools: seq<Tool>, script: RunScript, quiet: nat, t: nat, p: nat)
    requires CalmFrom(tools, script, quiet) && quiet <= t <= p
    ensures !GoesOn(tools, script.turns(t))
    ensures script.steered(p) == [] && script.followed(p) == []
  {
  }

  // ----- How far a run gets -----

  /** What a run starts with: the lengths of the two queues, whether its first poll is skipped, and the queue modes. */
  datatype Start = Start(steering: nat, followUps: nat, skip: bool, steeringMode: QueueMode, followUpMode: QueueMode)

  /** Where a run stands at a decision: its polls so far, the messages it holds, and those in the queues. */
  datatype Standing = Standing(polls: nat, held: nat, steering: nat, followUps: nat)

  function PollSteeringFrom(start: Start, script: RunScript, s: Standing): Standing {
    var steering := s.steering + |script.steered(s.polls)|;
    var taken := Takes(start.steeringMode, steering);
    Standing(s.polls + 1, taken, steering - taken, s.followUps + |script.followed(s.polls)|)
  }

  function PollFollowUpsFrom(start: Start, script: RunScript, s: Standing): Standing {
    var followUps := s.followUps + |script.followed(s.polls)|;
    var taken := Takes(start.followUpMode, followUps);
    Standing(s.polls + 1, taken, s.steering + |script.steered(s.polls)|, followUps - taken)
  }

  function FirstStanding(start: Start, script: RunScript): Standing {
    if start.skip then Standing(1, 0, start.steering + |script.steered(0)|, start.followUps + |script.followed(0)|)
    else PollSteeringFrom(start, script, Standing(0, 0, start.steering, start.followUps))
  }

  /** Another turn follows if the tools go on or a message is held; else the follow-up queue decides. */
  function Resolve(start: Start, script: RunScript, goesOn: bool, s: Standing): Option<Standing> {
    if goesOn || s.held > 0 then Some(s)
    else
      var next := PollFollowUpsFrom(start, script, s);
      if next.held > 0 then Some(next) else None
  }

  /** Where the run stands when turn `t` begins; None if it is over before. */
  function Forecast(tools: seq<Tool>, script: RunScript, start: Start, t: nat): Option<Standing> {
    if t == 0 then Some(FirstStanding(start, script))
    else AfterTurn(tools, script, start, script.turns(t - 1), Forecast(tools, script, start, t - 1))
  }

  function AfterTurn(tools: seq<Tool>, script: RunScript, start: Start, turn: TurnScript, before: Option<Standing>)
    : Option<Standing>
  {
    if before.None? || !EndingOf(turn).WentOn? then None
    else Resolve(start, script, GoesOn(tools, turn), PollSteeringFrom(start, script, before.value))
  }

  lemma ForecastStep(tools: seq<Tool>, script: RunScript, start: Start, t: nat)
    ensures Forecast(tools, script, start, t + 1)
         == AfterTurn(tools, script, start, script.turns(t), Forecast(tools, script, start, t))
  {
  }

  lemma HeldIsDelivered(start: Start, script: RunScript, s: Standing)
    ensures PollSteeringFrom(start, script, s.(held := 0)) == PollSteeringFrom(start, script, s)
  {
  }

  /** Turn `last` is reached, and no turn after it. */
  predicate EndsWith(tools: seq<Tool>, script: RunScript, start: Start, last: nat) {
    Forecast(tools, script, start, last).Some? && Forecast(tools, script, start, last + 1).None?
  }

  lemma {:induction false} ReachedBefore(tools: seq<Tool>, script: RunScript, start: Start, t: nat, k: nat)
    requires k <= t && Forecast(tools, script, start, t).Some?
    ensures Forecast(tools, script, start, k).Some?
    decreases t
  {
    if k < t {
      ReachedBefore(tools, script, start, t - 1, k);
    }
  }

  /** A run has one last turn. */
  lemma OneLastTurn(tools: seq<Tool>, script: RunScript, start: Start, k: nat, last: nat)
    requires EndsWith(tools, script, start, k) && EndsWith(tools, script, start, last)
    ensures k == last
  {
    NoneAfter(tools, script, start, k, last);
    NoneAfter(tools, script, start, last, k);
  }

  lemma NoneAfter(tools: seq<Tool>, script: RunScript, start: Start, last: nat, t: nat)
    requires EndsWith(tools, script, start, last) && Forecast(tools, script, start, t).Some?
    ensures t <= last
  {
    if last < t {
      ReachedBefore(tools, script, start, t, last + 1);
    }
  }

  /**
   * The loop stands, after `t` turns, where the forecast says. The quantifier keeps it folded: it is looked into only
   * where `Forecast` is mentioned.
   */
  ghost predicate Foreseen(tools: seq<Tool>, script: RunScript, start: Start, t: nat, goesOn: bool, s: Standing) {
    forall k: nat {:trigger Forecast(tools, script, start, k)} ::
      && (k == t ==> Forecast(tools, script, start, k) == Resolve(start, script, goesOn, s))
      && (k + 1 == t ==> Forecast(tools, script, start, k).Some?)
  }

  ghost predicate EndForeseen(tools: seq<Tool>, script: RunScript, start: Start, turns: nat) {
    forall last: nat {:trigger EndsWith(tools, script, start, last)} :: turns == last + 1 ==>
      EndsWith(tools, script, start, last)
  }

  lemma FirstForeseen(tools: seq<Tool>, script: RunScript, start: Start)
    ensures Foreseen(tools, script, start, 0, true, FirstStanding(start, script))
  {
  }

  /** From a decision for turn `t`, which goes on, to the next decision. */
  lemma NextForeseen(tools: seq<Tool>, script: RunScript, start: Start, t: nat, goesOn: bool, s: Standing)
    requires Foreseen(tools, script, start, t, goesOn, s) && (goesOn || s.held > 0)
    requires EndingOf(script.turns(t)).WentOn?
    ensures Foreseen(tools, script, start, t + 1, GoesOn(tools, script.turns(t)),
                     PollSteeringFrom(start, script, s.(held := 0)))
  {
    assert Forecast(tools, script, start, t) == Some(s);
    ForecastStep(tools, script, start, t);
    HeldIsDelivered(start, script, s);
  }

  /** From a decision for turn `t`, which does not go on, to the end. */
  lemma EndForeseenAt(tools: seq<Tool>, script: RunScript, start: Start, t: nat, goesOn: bool, s: Standing)
    requires Foreseen(tools, script, start, t, goesOn, s) && (goesOn || s.held > 0)
    requires !EndingOf(script.turns(t)).WentOn?
    ensures EndForeseen(tools, script, start, t + 1)
  {
    assert Forecast(tools, script, start, t) == Some(s);
    ForecastStep(tools, script, start, t);
    assert EndsWith(tools, script, start, t);
  }

  /** The inner loop is over: the follow-up queue decides. */
  lemma FollowUpsForeseen(tools: seq<Tool>, script: RunScript, start: Start, t: nat, s: Standing)
    requires Foreseen(tools, script, start, t, false, s) && s.held == 0
    ensures var next := PollFollowUpsFrom(start, script, s);
            if next.held > 0 then Foreseen(tools, script, start, t, false, next)
            else t > 0 ==> EndForeseen(tools, script, start, t)
  {
    var next := PollFollowUpsFrom(start, script, s);
    assert Forecast(tools, script, start, t) == if next.held > 0 then Some(next) else None;
    if next.held == 0 && t > 0 {
      var last: nat := t - 1;
      assert Forecast(tools, script, start, last).Some?;
      assert EndsWith(tools, script, start, last);
    }
  }
}
