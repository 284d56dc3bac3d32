/** Routed attempts: a request tries its routes in order, gated by the budget, until one of them answers. */
module Routing {
  import opened Common
  import opened Budget

  datatype Route = Route(provider: string, model: string)

  // ----- The response -----

  /** Server-sent frames; `attempt` is the attempt whose route the frame names. */
  datatype Frame =
    | RoleFrame(attempt: nat)
    | ContentFrame(attempt: nat, text: string)
    | ToolFrame(attempt: nat, id: string, name: string, arguments: string)
    | FinishFrame(attempt: nat, reason: string)
    | ErrorFrame(message: string)
    | DoneFrame

  datatype AttemptError = AttemptError(provider: string, model: string, message: string, shouldFallback: bool)

  datatype Body =
    | Completion(attempt: nat)
    | BudgetLimit(attempts: seq<AttemptError>)
    | RoutedFailure(message: string, attempts: seq<AttemptError>)
    | AllFailed(attempts: seq<AttemptError>)

  /** A response whose head may be written once, and which may not be written to after its end. */
  class ServerResponse {
    var status: Option<nat>
    var body: Option<Body>
    var frames: seq<Frame>
    var ended: bool

    ghost predicate Untouched()
      reads this
    {
      status == None && body == None && frames == [] && !ended
    }

    /** Event-stream headers are out and frames may follow. */
    ghost predicate Streaming()
      reads this
    {
      status == Some(200) && body == None && !ended
    }

    constructor ()
      ensures Untouched()
    {
      status, body, frames, ended := None, None, [], false;
    }

    method WriteJson(code: nat, json: Body)
      requires Untouched()
      modifies this
      ensures status == Some(code) && body == Some(json) && frames == [] && ended
    {
      status, body, ended := Some(code), Some(json), true;
    }

    method WriteSseHeaders()
      requires Untouched()
      modifies this
      ensures Streaming() && frames == []
    {
      status := Some(200);
    }

    method Write(frame: Frame)
      requires Streaming()
      modifies this
      ensures Streaming() && frames == old(frames) + [frame]
    {
      frames := frames + [frame];
    }

    method End()
      requires Streaming()
      modifies this
      ensures status == Some(200) && body == None && frames == old(frames) && ended
    {
      ended := true;
    }
  }

  class UsageStore {
    var records: seq<UsageRecord>

    constructor (records: seq<UsageRecord>)
      ensures this.records == records
    {
      this.records := records;
    }

    method Record(r: UsageRecord)
      modifies this
      ensures records == old(records) + [r]
    {
      records := records + [r];
    }
  }

  // ----- What upstream does -----

  datatype UpstreamEvent =
    | TextDelta(text: string)
    | ToolCallDone(id: string, name: string, arguments: string)
    | OtherEvent
    | Completed(reason: string, cost: Option<int>)
    | Failed(aborted: bool, message: Option<string>, cost: Option<int>)

  /**
   * One attempt: the clock reading its records are stamped with, the reading its budget check uses, its estimate, the
   * events of its stream, and, if anything on the way throws after them, the message.
   */
  datatype StreamAttempt = StreamAttempt(
    timestamp: int,
    now: int,
    estimate: Option<int>,
    events: seq<UpstreamEvent>,
    broken: Option<string>)

  const STREAM_ENDED := "Stream ended without a terminal event."

  predicate Terminal(e: UpstreamEvent) {
    e.Completed? || e.Failed?
  }

  /** The events before the first terminal one. */
  function Prefix(events: seq<UpstreamEvent>): (k: nat)
    ensures k <= |events| && (k < |events| ==> Terminal(events[k]))
    ensures forall j :: 0 <= j < k ==> !Terminal(events[j])
  {
    if events == [] || Terminal(events[0]) then 0 else 1 + Prefix(events[1..])
  }

  function FramesOf(i: nat, events: seq<UpstreamEvent>): seq<Frame> {
    if events == [] then []
    else
      var e := events[|events| - 1];
      FramesOf(i, events[..|events| - 1])
      + (if e.TextDelta? then [ContentFrame(i, e.text)]
         else if e.ToolCallDone? then [ToolFrame(i, e.id, e.name, e.arguments)]
         else [])
  }

  function MessageOf(e: UpstreamEvent): string
    requires e.Failed?
  {
    if e.message.Some? then e.message.value
    else if e.aborted then "Model stopped with aborted" else "Model stopped with error"
  }

  /** getAttemptFallbackDecision; `judge` stands for the provider-error rules. */
  predicate ShouldFallback(canFallback: bool, message: string, aborted: bool, judge: string -> bool) {
    canFallback && !aborted && judge(message)
  }

  /**
   * A terminal error before anything was shown, that must not fall back, and whose message is empty: the stored message
   * is then mistaken for no failure, and the attempt is treated as a stream without a terminal event on top of it.
   */
  predicate Swallowed(a: StreamAttempt, canFallback: bool, judge: string -> bool) {
    var k := Prefix(a.events);
    && k < |a.events| && a.events[k].Failed? && FramesOf(0, a.events[..k]) == []
    && MessageOf(a.events[k]) == "" && !ShouldFallback(canFallback, "", a.events[k].aborted, judge)
  }

  function RecordOf(a: StreamAttempt, route: Route, i: nat, status: Status, cost: Option<int>): UsageRecord {
    UsageRecord(a.timestamp, route.provider, i, status, cost)
  }

  /**
   * What an admitted attempt books: one record, or two when its failure is swallowed; only the first can carry a cost.
   */
  function StreamBooks(route: Route, i: nat, a: StreamAttempt, canFallback: bool, judge: string -> bool)
    : seq<UsageRecord>
  {
    var k := Prefix(a.events);
    if k == |a.events| then [RecordOf(a, route, i, Error, None)]
    else if a.events[k].Completed? then [RecordOf(a, route, i, Success, a.events[k].cost)]
    else
      [RecordOf(a, route, i, if a.events[k].aborted then Aborted else Error, a.events[k].cost)]
      + (if Swallowed(a, canFallback, judge) then [RecordOf(a, route, i, Error, None)] else [])
  }

  /** An admitted attempt leads on to the next route: nothing was shown, and the rules for its failure say so. */
  predicate FallsBack(a: StreamAttempt, canFallback: bool, judge: string -> bool) {
    var k := Prefix(a.events);
    && FramesOf(0, a.events[..k]) == []
    && if k == |a.events|
       then ShouldFallback(canFallback, if a.broken.Some? then a.broken.value else STREAM_ENDED, false, judge)
       else
         && a.events[k].Failed?
         && (|| ShouldFallback(canFallback, MessageOf(a.events[k]), a.events[k].aborted, judge)
             || (Swallowed(a, canFallback, judge) && ShouldFallback(canFallback, STREAM_ENDED, false, judge)))
  }

  // ----- What an attempt comes to, from its events alone -----

  /** The first `k` events are not terminal, and the next one, if there is one, is. */
  ghost predicate RunsTo(events: seq<UpstreamEvent>, k: nat) {
    && k <= |events| && (forall j :: 0 <= j < k ==> !events[j].Completed? && !events[j].Failed?)
    && (k < |events| ==> events[k].Completed? || events[k].Failed?)
  }

  /** None of the first `k` events shows anything. */
  ghost predicate ShowsNothing(events: seq<UpstreamEvent>, k: nat)
    requires k <= |events|
  {
    forall j :: 0 <= j < k ==> !events[j].TextDelta? && !events[j].ToolCallDone?
  }

  /** Why an attempt failed: the message of its error event, or what was thrown, or that its stream just ended. */
  ghost predicate FailsWith(a: StreamAttempt, k: nat, text: string)
    requires k <= |a.events|
  {
    if k < |a.events| then
      && a.events[k].Failed?
      && text == (if a.events[k].message.Some? then a.events[k].message.value
                  else if a.events[k].aborted then "Model stopped with aborted" else "Model stopped with error")
    else text == (if a.broken.Some? then a.broken.value else "Stream ended without a terminal event.")
  }

  /** A failure with an empty message, unseen, that may not fall back: nothing is stored of it. */
  ghost predicate LeavesNoTrace(a: StreamAttempt, k: nat, canFallback: bool, judge: string -> bool)
    requires k <= |a.events|
  {
    && k < |a.events| && a.events[k].Failed? && a.events[k].message == Some("") && ShowsNothing(a.events, k)
    && !(canFallback && !a.events[k].aborted && judge(""))
  }

  lemma {:induction false} SilentShowsNothing(i: nat, events: seq<UpstreamEvent>, k: nat)
    requires k <= |events|
    ensures FramesOf(i, events[..k]) == [] <==> ShowsNothing(events, k)
  {
    if k > 0 {
      SilentShowsNothing(i, events, k - 1);
      assert events[..k][..k - 1] == events[..k - 1];
    }
  }

  lemma RunsToPrefix(events: seq<UpstreamEvent>, k: nat)
    requires RunsTo(events, k)
    ensures k == Prefix(events)
  {
  }

  lemma SwallowedIs(a: StreamAttempt, k: nat, canFallback: bool, judge: string -> bool)
    requires RunsTo(a.events, k)
    ensures Swallowed(a, canFallback, judge) <==> LeavesNoTrace(a, k, canFallback, judge)
  {
    RunsToPrefix(a.events, k);
    SilentShowsNothing(0, a.events, k);
  }

  /** What an admitted attempt books: its status and the cost it reported, and an error on top when it left no trace. */
  lemma BooksTell(route: Route, i: nat, a: StreamAttempt, k: nat, canFallback: bool, judge: string -> bool)
    requires RunsTo(a.events, k)
    ensures var recs := StreamBooks(route, i, a, canFallback, judge);
            && |recs| == (if LeavesNoTrace(a, k, canFallback, judge) then 2 else 1)
            && recs[0].timestamp == a.timestamp && recs[0].provider == route.provider && recs[0].attemptIndex == i
            && (k == |a.events| ==> recs[0].status == Error && recs[0].cost == None)
            && (k < |a.events| && a.events[k].Completed? ==>
                 recs[0].status == Success && recs[0].cost == a.events[k].cost)
            && (k < |a.events| && a.events[k].Failed? ==>
                 && recs[0].status == (if a.events[k].aborted then Aborted else Error)
                 && recs[0].cost == a.events[k].cost)
            && (|recs| == 2 ==> recs[1] == UsageRecord(a.timestamp, route.provider, i, Error, None))
  {
    RunsToPrefix(a.events, k);
    SwallowedIs(a, k, canFallback, judge);
  }

  /** When an admitted attempt leads on: it has shown nothing, is not the last, and the rules take its failure on. */
  lemma FallsBackTells(a: StreamAttempt, k: nat, canFallback: bool, judge: string -> bool, text: string)
    requires RunsTo(a.events, k) && ((k < |a.events| && a.events[k].Completed?) || FailsWith(a, k, text))
    ensures FallsBack(a, canFallback, judge)
       <==> && ShowsNothing(a.events, k) && canFallback && !(k < |a.events| && a.events[k].Completed?)
            && (|| ((k < |a.events| ==> !a.events[k].aborted) && judge(text))
                || (LeavesNoTrace(a, k, canFallback, judge) && judge("Stream ended without a terminal event.")))
  {
    RunsToPrefix(a.events, k);
    SwallowedIs(a, k, canFallback, judge);
    SilentShowsNothing(0, a.events, k);
  }

  /** How a response that was sent for an attempt ends, and what its failure document says. */
  ghost predicate Closes(response: ServerResponse, i: nat, a: StreamAttempt, k: nat, swallowed: bool)
    requires k <= |a.events|
    reads response
  {
    && (response.frames != [] ==>
         && |response.frames| >= 2 && response.frames[|response.frames| - 1] == DoneFrame
         && var last := response.frames[|response.frames| - 2];
            if k < |a.events| && a.events[k].Completed? then last == FinishFrame(i, a.events[k].reason)
            else last.ErrorFrame? && FailsWith(a, k, last.message))
    && (response.body.Some? && response.body.value.RoutedFailure? ==>
         if swallowed then response.body.value.message == "Stream ended without a terminal event."
         else FailsWith(a, k, response.body.value.message))
  }

  /** The entries an admitted attempt adds to the list of failed attempts: none once an error event was shown. */
  function StreamErrors(route: Route, a: StreamAttempt, canFallback: bool, judge: string -> bool): seq<AttemptError> {
    var k := Prefix(a.events);
    var ended := STREAM_ENDED;
    if k == |a.events| then
      var text := if a.broken.Some? then a.broken.value else ended;
      [AttemptError(route.provider, route.model, text, canFallback && judge(text))]
    else if a.events[k].Completed? || FramesOf(0, a.events[..k]) != [] then []
    else
      var text := MessageOf(a.events[k]);
      [AttemptError(route.provider, route.model, text, canFallback && !a.events[k].aborted && judge(text))]
      + (if Swallowed(a, canFallback, judge)
         then [AttemptError(route.provider, route.model, ended, canFallback && judge(ended))] else [])
  }

  // ----- Shapes -----

  /** One well-formed event stream, all of whose frames come from attempt `i`. */
  ghost predicate SseShape(frames: seq<Frame>, i: nat) {
    && |frames| >= 3
    && frames[0] == RoleFrame(i)
    && (forall j :: 1 <= j < |frames| - 2 ==>
         (frames[j].ContentFrame? || frames[j].ToolFrame?) && frames[j].attempt == i)
    && (frames[|frames| - 2].ErrorFrame? || (frames[|frames| - 2].FinishFrame? && frames[|frames| - 2].attempt == i))
    && frames[|frames| - 1] == DoneFrame
  }

  /** Exactly one response: a 402 or 502 document, or one event stream from the last attempt `i`. */
  ghost predicate Answered(response: ServerResponse, i: nat)
    reads response
  {
    && response.ended
    && (|| (response.status == Some(402) && response.frames == [] && response.body.Some?
            && response.body.value.BudgetLimit?)
        || (response.status == Some(502) && response.frames == [] && response.body.Some?
            && response.body.value.RoutedFailure?)
        || (response.status == Some(200) && response.body == None && SseShape(response.frames, i)))
  }

  ghost predicate Succeeded(response: ServerResponse)
    reads response
  {
    |response.frames| >= 2 && response.frames[|response.frames| - 2].FinishFrame?
  }

  lemma {:induction false} FramesAreContent(i: nat, events: seq<UpstreamEvent>)
    ensures forall j :: 0 <= j < |FramesOf(i, events)| ==>
      (FramesOf(i, events)[j].ContentFrame? || FramesOf(i, events)[j].ToolFrame?) && FramesOf(i, events)[j].attempt == i
  {
    if events != [] {
      FramesAreContent(i, events[..|events| - 1]);
    }
  }

  lemma {:induction false} ShownForAll(i: nat, j: nat, events: seq<UpstreamEvent>)
    ensures FramesOf(i, events) == [] <==> FramesOf(j, events) == []
  {
    if events != [] {
      ShownForAll(i, j, events[..|events| - 1]);
    }
  }

  lemma ShapeOf(i: nat, events: seq<UpstreamEvent>, last: Frame)
    requires last.ErrorFrame? || (last.FinishFrame? && last.attempt == i)
    ensures SseShape([RoleFrame(i)] + FramesOf(i, events) + [last] + [DoneFrame], i)
  {
    FramesAreContent(i, events);
  }

  // ----- One streaming attempt -----

  ghost predicate Blocked(settings: Option<Settings>, month: int -> int, records: seq<UsageRecord>, route: Route,
                          estimate: Option<int>, now: int)
  {
    settings.Some? && ResolveRule(settings.value, NormalizeProvider(route.provider)).mode == Block
    && !Admits(settings.value, month, records, route.provider, estimate, now)
  }

  /** The budget check before an attempt; without settings there is none. */
  method Gate(settings: Option<Settings>, month: int -> int, store: UsageStore, route: Route, estimate: Option<int>,
              now: int)
    returns (blocked: bool)
    ensures blocked <==> Blocked(settings, month, store.records, route, estimate, now)
    ensures blocked <==>
      && settings.Some? && ModeInForce(settings.value, NormalizeProvider(route.provider), Block)
      && OverLimit(settings.value, month, store.records, route.provider, estimate, now)
  {
    if settings.None? {
      return false;
    }
    RuleInForce(settings.value, NormalizeProvider(route.provider));
    AdmitsUnlessOver(settings.value, month, store.records, route.provider, estimate, now);
    var status := EvaluateBudget(settings.value, month, store.records, route.provider, estimate, now);
    return status.ShouldBlock();
  }

  /** The gate without rules of its own: a general blocking limit stops whoever has no rule, and only blocking stops. */
  lemma GeneralLimitStops(settings: Settings, month: int -> int, records: seq<UsageRecord>, route: Route,
                          estimate: int, now: int)
    requires IsCalendar(month) && NotAfter(records, now) && estimate >= 0
    requires settings.general.mode == Some(Block) && Queryable(route.provider)
    requires NormalizeProvider(route.provider).Some? ==> route.provider !in settings.perProvider
    requires var daily := Spent(records, route.provider, StartOfDay, StartOfDay(now)) + estimate;
             var monthly := Spent(records, route.provider, month, month(now)) + estimate;
             || (settings.general.daily.Some? && 0 <= settings.general.daily.value < daily)
             || (settings.general.monthly.Some? && 0 <= settings.general.monthly.value < monthly)
             || (settings.general.request.Some? && 0 <= settings.general.request.value < estimate)
    ensures Blocked(Some(settings), month, records, route, Some(estimate), now)
  {
    DaysAreACalendar();
    QuerySeesSpending(records, route.provider, NormalizeProvider(route.provider), StartOfDay, now);
    QuerySeesSpending(records, route.provider, NormalizeProvider(route.provider), month, now);
  }

  lemma OnlyBlockingStops(settings: Settings, month: int -> int, records: seq<UsageRecord>, route: Route,
                          estimate: Option<int>, now: int)
    requires !ModeInForce(settings, NormalizeProvider(route.provider), Block)
    ensures !Blocked(Some(settings), month, records, route, estimate, now)
  {
    RuleInForce(settings, NormalizeProvider(route.provider));
  }

  const BUDGET_MESSAGE := "budget limit exceeded"

  function ErrorOf(route: Route, message: string, fallback: bool): AttemptError {
    AttemptError(route.provider, route.model, message, fallback)
  }

  /** The role frame, unless something has been shown already. */
  method WriteRole(response: ServerResponse, i: nat, visible: bool)
    requires if visible then response.Streaming() else response.Untouched()
    modifies response
    ensures response.Streaming()
    ensures response.frames == if visible then old(response.frames) else [RoleFrame(i)]
  {
    if !visible {
      response.WriteSseHeaders();
      response.Write(RoleFrame(i));
    }
  }

  /** What has been sent when attempt `i` has shown `events`. */
  ghost predicate Relayed(response: ServerResponse, i: nat, events: seq<UpstreamEvent>, visible: bool)
    reads response
  {
    && (visible <==> FramesOf(i, events) != [])
    && if visible then response.Streaming() && response.frames == [RoleFrame(i)] + FramesOf(i, events)
       else response.Untouched()
  }

  lemma FramesStep(i: nat, events: seq<UpstreamEvent>, e: UpstreamEvent)
    ensures FramesOf(i, events + [e])
         == FramesOf(i, events)
            + (if e.TextDelta? then [ContentFrame(i, e.text)]
               else if e.ToolCallDone? then [ToolFrame(i, e.id, e.name, e.arguments)]
               else [])
  {
    assert (events + [e])[..|events|] == events;
  }

  lemma RoleFirst(role: Frame, shown: seq<Frame>, frame: Frame)
    ensures [role] + shown + [frame] == [role] + (shown + [frame])
  {
  }

  /** One more frame that shows something, after the role frame. */
  method Show(response: ServerResponse, i: nat, ghost shown: seq<Frame>, frame: Frame, visible: bool)
    requires if visible then response.Streaming() && response.frames == [RoleFrame(i)] + shown
             else response.Untouched() && shown == []
    modifies response
    ensures response.Streaming() && response.frames == [RoleFrame(i)] + (shown + [frame])
  {
    WriteRole(response, i, visible);
    assert response.frames == [RoleFrame(i)] + shown;
    response.Write(frame);
    RoleFirst(RoleFrame(i), shown, frame);
  }

  /** One event of the stream: what it shows is sent, after the role frame. */
  method RelayOne(response: ServerResponse, i: nat, ghost events: seq<UpstreamEvent>, e: UpstreamEvent, visible: bool)
    returns (visible': bool)
    requires Relayed(response, i, events, visible)
    modifies response
    ensures Relayed(response, i, events + [e], visible')
  {
    FramesStep(i, events, e);
    visible' := visible;
    match e {
      case TextDelta(text) =>
        Show(response, i, FramesOf(i, events), ContentFrame(i, text), visible);
        visible' := true;
      case ToolCallDone(id, name, arguments) =>
        Show(response, i, FramesOf(i, events), ToolFrame(i, id, name, arguments), visible);
        visible' := true;
      case _ =>
    }
  }

  lemma PrefixIs(events: seq<UpstreamEvent>, k: nat)
    requires k <= |events| && (k < |events| ==> Terminal(events[k]))
    requires forall j :: 0 <= j < k ==> !Terminal(events[j])
    ensures k == Prefix(events)
  {
  }

  /** The stream loop up to its terminal event or its end. */
  method Relay(response: ServerResponse, i: nat, events: seq<UpstreamEvent>)
    returns (k: nat, visible: bool)
    requires response.Untouched()
    modifies response
    ensures k == Prefix(events) && Relayed(response, i, events[..k], visible)
  {
    k, visible := 0, false;
    while k < |events| && !Terminal(events[k])
      invariant k <= |events| && Relayed(response, i, events[..k], visible)
      invariant forall j :: 0 <= j < k ==> !Terminal(events[j])
    {
      assert events[..k + 1] == events[..k] + [events[k]];
      visible := RelayOne(response, i, events[..k], events[k], visible);
      k := k + 1;
    }
    PrefixIs(events, k);
  }

  /** The last frame of a stream, the end marker, and the end of the response. */
  method CloseStream(response: ServerResponse, i: nat, ghost events: seq<UpstreamEvent>, visible: bool, last: Frame)
    requires Relayed(response, i, events, visible)
    requires (last.ErrorFrame? && visible) || (last.FinishFrame? && last.attempt == i)
    modifies response
    ensures response.frames == [RoleFrame(i)] + FramesOf(i, events) + [last] + [DoneFrame]
    ensures Answered(response, i) && response.status == Some(200) && Carries(response.frames, i, events)
    ensures Succeeded(response) <==> last.FinishFrame?
  {
    WriteRole(response, i, visible);
    assert response.frames == [RoleFrame(i)] + FramesOf(i, events);
    response.Write(last);
    response.Write(DoneFrame);
    response.End();
    ShapeOf(i, events, last);
    ClosedCarries(i, events, last);
  }

  /** How an attempt leaves the request: on to the next route with nothing sent, or answered. */
  ghost predicate Left(response: ServerResponse, i: nat, next: bool, canFallback: bool, ended: Status)
    reads response
  {
    if next then response.Untouched() && canFallback && ended != Success
    else
      && Answered(response, i) && (Succeeded(response) <==> ended == Success)
      && (response.status == Some(402) <==> ended == Skipped)
  }

  /** If anything was sent, it is the role, then exactly what upstream showed, in order, then two closing frames. */
  ghost predicate Carries(frames: seq<Frame>, i: nat, events: seq<UpstreamEvent>) {
    frames != [] ==> |frames| >= 2 && frames[..|frames| - 2] == [RoleFrame(i)] + FramesOf(i, events)
  }

  lemma ClosedCarries(i: nat, events: seq<UpstreamEvent>, last: Frame)
    ensures Carries([RoleFrame(i)] + FramesOf(i, events) + [last] + [DoneFrame], i, events)
  {
    var frames := [RoleFrame(i)] + FramesOf(i, events) + [last] + [DoneFrame];
    assert frames[..|frames| - 2] == [RoleFrame(i)] + FramesOf(i, events);
  }

  /**
   * Unless its stream was shown, an attempt adds `n` entries about its route to the list of failed attempts; and a
   * failure document carries the whole list.
   */
  ghost predicate Lists(response: ServerResponse, next: bool, route: Route, n: nat, errors: seq<AttemptError>,
                        errors': seq<AttemptError>)
    reads response
  {
    && (next || response.body.Some? ==>
         && |errors'| == |errors| + n && errors <= errors'
         && forall k :: |errors| <= k < |errors'| ==>
              errors'[k].provider == route.provider && errors'[k].model == route.model)
    && (response.body.Some? ==> !response.body.value.Completion? && response.body.value.attempts == errors')
  }

  /** A stream that ended without a terminal event, or threw. */
  method FailStream(response: ServerResponse, store: UsageStore, route: Route, i: nat, canFallback: bool,
                    a: StreamAttempt, judge: string -> bool, ghost events: seq<UpstreamEvent>, visible: bool,
                    message: string, errors: seq<AttemptError>)
    returns (next: bool, errors': seq<AttemptError>)
    requires Relayed(response, i, events, visible)
    modifies response, store
    ensures store.records == old(store.records) + [RecordOf(a, route, i, Error, None)]
    ensures Left(response, i, next, canFallback, Error)
    ensures Carries(response.frames, i, events)
    ensures next <==> !visible && ShouldFallback(canFallback, message, false, judge)
    ensures Lists(response, next, route, 1, errors, errors')
    ensures errors' == errors + [AttemptError(route.provider, route.model, message, canFallback && judge(message))]
    ensures response.frames != [] ==>
      && |response.frames| >= 2 && response.frames[|response.frames| - 1] == DoneFrame
      && response.frames[|response.frames| - 2] == ErrorFrame(message)
    ensures !visible ==> response.frames == []
    ensures response.body.Some? ==> response.body.value == RoutedFailure(message, errors')
  {
    var fallback := ShouldFallback(canFallback, message, false, judge);
    errors' := errors + [ErrorOf(route, message, fallback)];
    store.Record(RecordOf(a, route, i, Error, None));
    if visible {
      CloseStream(response, i, events, visible, ErrorFrame(message));
      return false, errors';
    }
    if fallback {
      return true, errors';
    }
    response.WriteJson(502, RoutedFailure(message, errors'));
    return false, errors';
  }

  /** An error event: it is booked at once; only before anything was shown can it lead to another route. */
  method RunErrorEvent(response: ServerResponse, store: UsageStore, route: Route, i: nat, canFallback: bool,
                       a: StreamAttempt, judge: string -> bool, e: UpstreamEvent, ghost shown: seq<UpstreamEvent>,
                       visible: bool, errors: seq<AttemptError>)
    returns (next: bool, errors': seq<AttemptError>, ghost recs: seq<UsageRecord>)
    requires Relayed(response, i, shown, visible) && e.Failed?
    modifies response, store
    ensures store.records == old(store.records) + recs
    ensures var swallowed := !visible && MessageOf(e) == "" && !ShouldFallback(canFallback, "", e.aborted, judge);
            var first := RecordOf(a, route, i, if e.aborted then Aborted else Error, e.cost);
            && recs == (if swallowed then [first, RecordOf(a, route, i, Error, None)] else [first])
            && (next <==> !visible && (|| ShouldFallback(canFallback, MessageOf(e), e.aborted, judge)
                                       || (swallowed && ShouldFallback(canFallback, STREAM_ENDED, false, judge))))
    ensures Left(response, i, next, canFallback, recs[|recs| - 1].status)
    ensures Carries(response.frames, i, shown) && Lists(response, next, route, |recs|, errors, errors')
    ensures var message := MessageOf(e);
            && (response.frames != [] ==>
                 && |response.frames| >= 2 && response.frames[|response.frames| - 1] == DoneFrame
                 && response.frames[|response.frames| - 2] == ErrorFrame(message))
            && (response.body.Some? ==>
                 response.body.value == RoutedFailure(if |recs| == 2 then STREAM_ENDED else message, errors'))
    ensures var text, ended := MessageOf(e), STREAM_ENDED;
            errors'
            == errors
               + (if visible then []
                  else
                    [AttemptError(route.provider, route.model, text, canFallback && !e.aborted && judge(text))]
                    + (if |recs| == 2
                       then [AttemptError(route.provider, route.model, ended, canFallback && judge(ended))] else []))
  {
    var message := MessageOf(e);
    var fallback := ShouldFallback(canFallback, message, e.aborted, judge);
    var r := RecordOf(a, route, i, if e.aborted then Aborted else Error, e.cost);
    store.Record(r);
    if visible {
      CloseStream(response, i, shown, visible, ErrorFrame(message));
      return false, errors, [r];
    }
    errors' := errors + [ErrorOf(route, message, fallback)];
    if fallback {
      return true, errors', [r];
    }
    if message != "" {
      response.WriteJson(502, RoutedFailure(message, errors'));
      return false, errors', [r];
    }
    next, errors' :=
      FailStream(response, store, route, i, canFallback, a, judge, shown, visible, STREAM_ENDED, errors');
    recs := [r, RecordOf(a, route, i, Error, None)];
  }

  /**
   * What an admitted attempt leaves behind: its records, its decision, its response, and the list of failed attempts.
   */
  ghost predicate RanAs(response: ServerResponse, route: Route, i: nat, canFallback: bool, a: StreamAttempt,
                        judge: string -> bool, errors: seq<AttemptError>, next: bool, errors': seq<AttemptError>,
                        recs: seq<UsageRecord>)
    reads response
  {
    && recs == StreamBooks(route, i, a, canFallback, judge)
    && (next <==> FallsBack(a, canFallback, judge))
    && Left(response, i, next, canFallback, recs[|recs| - 1].status)
    && Carries(response.frames, i, a.events[..Prefix(a.events)])
    && Lists(response, next, route, |recs|, errors, errors')
    && errors' == errors + StreamErrors(route, a, canFallback, judge)
    && Closes(response, i, a, Prefix(a.events), Swallowed(a, canFallback, judge))
  }

  /** A stream that completed. */
  method RunCompleted(response: ServerResponse, store: UsageStore, route: Route, i: nat, canFallback: bool,
                      a: StreamAttempt, judge: string -> bool, k: nat, visible: bool, errors: seq<AttemptError>)
    returns (ghost recs: seq<UsageRecord>)
    requires k == Prefix(a.events) < |a.events| && a.events[k].Completed?
    requires Relayed(response, i, a.events[..k], visible)
    modifies response, store
    ensures store.records == old(store.records) + recs
    ensures RanAs(response, route, i, canFallback, a, judge, errors, false, errors, recs)
  {
    var r := RecordOf(a, route, i, Success, a.events[k].cost);
    store.Record(r);
    CloseStream(response, i, a.events[..k], visible, FinishFrame(i, a.events[k].reason));
    recs := [r];
  }

  /** What an error event does is what the attempt is to do. */
  lemma FailedAs(route: Route, i: nat, canFallback: bool, a: StreamAttempt, judge: string -> bool, k: nat,
                 visible: bool)
    requires k == Prefix(a.events) < |a.events| && a.events[k].Failed?
    requires visible <==> FramesOf(i, a.events[..k]) != []
    ensures var e, text, ended := a.events[k], MessageOf(a.events[k]), STREAM_ENDED;
            var swallowed := !visible && text == "" && !ShouldFallback(canFallback, "", e.aborted, judge);
            var first := RecordOf(a, route, i, if e.aborted then Aborted else Error, e.cost);
            && (Swallowed(a, canFallback, judge) <==> swallowed)
            && StreamBooks(route, i, a, canFallback, judge)
               == (if swallowed then [first, RecordOf(a, route, i, Error, None)] else [first])
            && (FallsBack(a, canFallback, judge)
                <==> !visible && (|| ShouldFallback(canFallback, text, e.aborted, judge)
                                  || (swallowed && ShouldFallback(canFallback, ended, false, judge))))
            && StreamErrors(route, a, canFallback, judge)
               == (if visible then []
                   else
                     [AttemptError(route.provider, route.model, text, canFallback && !e.aborted && judge(text))]
                     + (if swallowed
                        then [AttemptError(route.provider, route.model, ended, canFallback && judge(ended))] else []))
  {
    ShownForAll(i, 0, a.events[..k]);
  }

  /** A stream that reported a failure. */
  method RunFailed(response: ServerResponse, store: UsageStore, route: Route, i: nat, canFallback: bool,
                   a: StreamAttempt, judge: string -> bool, k: nat, visible: bool, errors: seq<AttemptError>)
    returns (next: bool, errors': seq<AttemptError>, ghost recs: seq<UsageRecord>)
    requires k == Prefix(a.events) < |a.events| && a.events[k].Failed?
    requires Relayed(response, i, a.events[..k], visible)
    modifies response, store
    ensures store.records == old(store.records) + recs
    ensures RanAs(response, route, i, canFallback, a, judge, errors, next, errors', recs)
  {
    FailedAs(route, i, canFallback, a, judge, k, visible);
    next, errors', recs :=
      RunErrorEvent(response, store, route, i, canFallback, a, judge, a.events[k], a.events[..k], visible, errors);
  }

  /** A stream that ended without a terminal event, or threw. */
  method RunBroken(response: ServerResponse, store: UsageStore, route: Route, i: nat, canFallback: bool,
                   a: StreamAttempt, judge: string -> bool, k: nat, visible: bool, errors: seq<AttemptError>)
    returns (next: bool, errors': seq<AttemptError>, ghost recs: seq<UsageRecord>)
    requires k == Prefix(a.events) == |a.events| && Relayed(response, i, a.events[..k], visible)
    modifies response, store
    ensures store.records == old(store.records) + recs
    ensures RanAs(response, route, i, canFallback, a, judge, errors, next, errors', recs)
  {
    ShownForAll(i, 0, a.events[..k]);
    var message := if a.broken.Some? then a.broken.value else STREAM_ENDED;
    next, errors' :=
      FailStream(response, store, route, i, canFallback, a, judge, a.events[..k], visible, message, errors);
    recs := [RecordOf(a, route, i, Error, None)];
  }

  /** An attempt that passed the gate. */
  method RunAdmitted(response: ServerResponse, store: UsageStore, route: Route, i: nat, canFallback: bool,
                     a: StreamAttempt, judge: string -> bool, errors: seq<AttemptError>)
    returns (next: bool, errors': seq<AttemptError>, ghost recs: seq<UsageRecord>)
    requires response.Untouched()
    modifies response, store
    ensures store.records == old(store.records) + recs
    ensures RanAs(response, route, i, canFallback, a, judge, errors, next, errors', recs)
  {
    var k, visible := Relay(response, i, a.events);
    if k == |a.events| {
      next, errors', recs := RunBroken(response, store, route, i, canFallback, a, judge, k, visible, errors);
    } else if a.events[k].Completed? {
      recs := RunCompleted(response, store, route, i, canFallback, a, judge, k, visible, errors);
      next, errors' := false, errors;
    } else {
      next, errors', recs := RunFailed(response, store, route, i, canFallback, a, judge, k, visible, errors);
    }
  }

  /** One pass of the streaming attempt loop. */
  method RunStreamAttempt(response: ServerResponse, store: UsageStore, settings: Option<Settings>, month: int -> int,
                          route: Route, i: nat, canFallback: bool, a: StreamAttempt, judge: string -> bool,
                          errors: seq<AttemptError>)
    returns (next: bool, errors': seq<AttemptError>, ghost recs: seq<UsageRecord>)
    requires response.Untouched()
    modifies response, store
    ensures store.records == old(store.records) + recs
    ensures if Blocked(settings, month, old(store.records), route, a.estimate, a.now)
            then recs == [RecordOf(a, route, i, Skipped, None)] && next == canFallback
            else recs == StreamBooks(route, i, a, canFallback, judge) && next == FallsBack(a, canFallback, judge)
    ensures Left(response, i, next, canFallback, recs[|recs| - 1].status)
    ensures Carries(response.frames, i, a.events[..Prefix(a.events)])
    ensures Lists(response, next, route, |recs|, errors, errors')
    ensures errors'
         == errors
            + (if Blocked(settings, month, old(store.records), route, a.estimate, a.now)
               then [AttemptError(route.provider, route.model, BUDGET_MESSAGE, canFallback)]
               else StreamErrors(route, a, canFallback, judge))
    ensures Closes(response, i, a, Prefix(a.events), Swallowed(a, canFallback, judge))
  {
    var blocked := Gate(settings, month, store, route, a.estimate, a.now);
    if blocked {
      errors' := errors + [ErrorOf(route, BUDGET_MESSAGE, canFallback)];
      recs := [RecordOf(a, route, i, Skipped, None)];
      store.Record(RecordOf(a, route, i, Skipped, None));
      if canFallback {
        return true, errors', recs;
      }
      response.WriteJson(402, BudgetLimit(errors'));
      return false, errors', recs;
    }
    next, errors', recs := RunAdmitted(response, store, route, i, canFallback, a, judge, errors);
  }
}
