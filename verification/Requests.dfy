/** Whole requests, streaming and plain, and whole sequences of them over one usage ledger. */
module Requests {
  import opened Common
  import opened Budget
  import opened Routing

  // ----- Requests -----

  /** A streaming request as the attempt loop sees it. */
  datatype StreamRequest = StreamRequest(
    plan: seq<Route>,
    settings: Option<Settings>,
    month: int -> int,
    attempt: nat -> StreamAttempt,
    judge: string -> bool)

  datatype Stop = Fine | Broke | Cancelled

  datatype PlainOutcome = Replied(stop: Stop, message: Option<string>, cost: Option<int>) | Threw(error: string)

  datatype PlainAttempt = PlainAttempt(timestamp: int, now: int, estimate: Option<int>, outcome: PlainOutcome)

  datatype PlainRequest = PlainRequest(
    plan: seq<Route>,
    settings: Option<Settings>,
    month: int -> int,
    attempt: nat -> PlainAttempt,
    judge: string -> bool)

  function PlainStatus(o: PlainOutcome): Status {
    if o.Threw? || o.stop == Broke then Error else if o.stop == Cancelled then Aborted else Success
  }

  function PlainMessage(o: PlainOutcome): string
    requires PlainStatus(o) != Success
  {
    if o.Threw? then o.error
    else if o.message.Some? then o.message.value
    else if o.stop == Cancelled then "Model stopped with aborted" else "Model stopped with error"
  }

  function PlainCost(o: PlainOutcome): Option<int> {
    if o.Replied? then o.cost else None
  }

  predicate PlainFallsBack(o: PlainOutcome, canFallback: bool, judge: string -> bool) {
    PlainStatus(o) != Success && ShouldFallback(canFallback, PlainMessage(o), PlainStatus(o) == Aborted, judge)
  }

  datatype Request = Streamed(stream: StreamRequest) | Plain(plain: PlainRequest)
  {
    function Plan(): seq<Route> {
      match this
      case Streamed(q) => q.plan
      case Plain(q) => q.plan
    }

    function Limits(): Option<Settings> {
      match this
      case Streamed(q) => q.settings
      case Plain(q) => q.settings
    }

    function Month(): int -> int {
      match this
      case Streamed(q) => q.month
      case Plain(q) => q.month
    }

    function Stamp(j: nat): int {
      match this
      case Streamed(q) => q.attempt(j).timestamp
      case Plain(q) => q.attempt(j).timestamp
    }

    function Now(j: nat): int {
      match this
      case Streamed(q) => q.attempt(j).now
      case Plain(q) => q.attempt(j).now
    }

    function Estimate(j: nat): Option<int> {
      match this
      case Streamed(q) => q.attempt(j).estimate
      case Plain(q) => q.attempt(j).estimate
    }

    /** The cost attempt `j` reports. */
    function Cost(j: nat): Option<int> {
      match this
      case Streamed(q) =>
        var events := q.attempt(j).events;
        if Prefix(events) < |events| then events[Prefix(events)].cost else None
      case Plain(q) => PlainCost(q.attempt(j).outcome)
    }

    predicate CanFallback(j: nat) {
      j + 1 < |Plan()|
    }

    /** The gate stops attempt `j` when the ledger is `records`. */
    ghost predicate BlockedAt(j: nat, records: seq<UsageRecord>)
      requires j < |Plan()|
    {
      Blocked(Limits(), Month(), records, Plan()[j], Estimate(j), Now(j))
    }

    /** What attempt `j` books when the ledger is `records`. */
    ghost function Expected(j: nat, records: seq<UsageRecord>): seq<UsageRecord>
      requires j < |Plan()|
    {
      if BlockedAt(j, records) then [UsageRecord(Stamp(j), Plan()[j].provider, j, Skipped, None)]
      else match this
        case Streamed(q) => StreamBooks(q.plan[j], j, q.attempt(j), CanFallback(j), q.judge)
        case Plain(q) =>
          var o := q.attempt(j).outcome;
          [UsageRecord(Stamp(j), q.plan[j].provider, j, PlainStatus(o), PlainCost(o))]
    }

    /** The entries attempt `j` adds to the list of failed attempts. */
    ghost function Errors(j: nat, records: seq<UsageRecord>): seq<AttemptError>
      requires j < |Plan()|
    {
      var route := Plan()[j];
      if BlockedAt(j, records) then [AttemptError(route.provider, route.model, BUDGET_MESSAGE, CanFallback(j))]
      else match this
        case Streamed(q) => StreamErrors(route, q.attempt(j), CanFallback(j), q.judge)
        case Plain(q) =>
          var o := q.attempt(j).outcome;
          if PlainStatus(o) == Success then []
          else [AttemptError(route.provider, route.model, PlainMessage(o), PlainFallsBack(o, CanFallback(j), q.judge))]
    }

    /** Attempt `j` leads on to the next route. */
    ghost predicate LeadsOn(j: nat, records: seq<UsageRecord>)
      requires j < |Plan()|
    {
      if BlockedAt(j, records) then CanFallback(j)
      else match this
        case Streamed(q) => FallsBack(q.attempt(j), CanFallback(j), q.judge)
        case Plain(q) => PlainFallsBack(q.attempt(j).outcome, CanFallback(j), q.judge)
    }

    /** Attempt `j` gets through the gate and its failure is swallowed. */
    ghost predicate DoubleBooked(j: nat, records: seq<UsageRecord>)
      requires j < |Plan()|
    {
      Streamed? && !BlockedAt(j, records) && Swallowed(stream.attempt(j), CanFallback(j), stream.judge)
    }
  }

  /** What the records of one attempt have in common, whatever its kind. */
  lemma ExpectedFacts(r: Request, j: nat, records: seq<UsageRecord>)
    requires j < |r.Plan()|
    ensures var recs := r.Expected(j, records);
            && |recs| == (if r.DoubleBooked(j, records) then 2 else 1)
            && (forall n :: 0 <= n < |recs| ==>
                 && recs[n].provider == r.Plan()[j].provider && recs[n].attemptIndex == j
                 && recs[n].timestamp == r.Stamp(j))
            && (forall n :: 1 <= n < |recs| ==> recs[n].cost == None && recs[n].status == Error)
            && (recs[0].cost.Some? ==> recs[0].cost == r.Cost(j) && !r.BlockedAt(j, records))
            && (recs[0].status == Skipped <==> r.BlockedAt(j, records))
            && (r.LeadsOn(j, records) ==>
                 && recs[|recs| - 1].status != Success
                 && (|recs| == 1 ==> recs[0].status == Error || recs[0].status == Skipped))
  {
  }

  // ----- What a plain attempt comes to, from its outcome alone -----

  /** Its reply is a success unless it stopped with an error or was aborted; what it threw is an error. */
  ghost predicate HasStatus(o: PlainOutcome, status: Status) {
    match o
    case Replied(Fine, _, _) => status == Success
    case Replied(Broke, _, _) => status == Error
    case Replied(Cancelled, _, _) => status == Aborted
    case Threw(_) => status == Error
  }

  ghost predicate SaysWhy(o: PlainOutcome, text: string) {
    match o
    case Replied(_, Some(message), _) => text == message
    case Replied(Broke, None, _) => text == "Model stopped with error"
    case Replied(Cancelled, None, _) => text == "Model stopped with aborted"
    case Replied(Fine, None, _) => false
    case Threw(error) => text == error
  }

  /** An admitted plain attempt books the cost it reported, and leads on when the rules take its failure on. */
  lemma PlainTells(q: PlainRequest, j: nat, records: seq<UsageRecord>, text: string)
    requires j < |q.plan| && !Plain(q).BlockedAt(j, records)
    requires HasStatus(q.attempt(j).outcome, Success) || SaysWhy(q.attempt(j).outcome, text)
    ensures var a, recs := q.attempt(j), Plain(q).Expected(j, records);
            && |recs| == 1 && recs[0].timestamp == a.timestamp && recs[0].provider == q.plan[j].provider
            && recs[0].attemptIndex == j && HasStatus(a.outcome, recs[0].status)
            && (a.outcome.Replied? ==> recs[0].cost == a.outcome.cost) && (a.outcome.Threw? ==> recs[0].cost == None)
            && (Plain(q).LeadsOn(j, records)
                <==> && j + 1 < |q.plan| && q.judge(text)
                     && !HasStatus(a.outcome, Success) && !HasStatus(a.outcome, Aborted))
  {
  }

  /** A blocked attempt of either kind books a skip without cost, and leads on unless it is the last. */
  lemma BlockedTells(r: Request, j: nat, records: seq<UsageRecord>)
    requires j < |r.Plan()|
    ensures r.BlockedAt(j, records)
       <==> && r.Limits().Some? && ModeInForce(r.Limits().value, NormalizeProvider(r.Plan()[j].provider), Block)
            && OverLimit(r.Limits().value, r.Month(), records, r.Plan()[j].provider, r.Estimate(j), r.Now(j))
    ensures r.BlockedAt(j, records) ==>
      && r.Expected(j, records) == [UsageRecord(r.Stamp(j), r.Plan()[j].provider, j, Skipped, None)]
      && (r.LeadsOn(j, records) <==> j + 1 < |r.Plan()|)
  {
    if r.Limits().Some? {
      RuleInForce(r.Limits().value, NormalizeProvider(r.Plan()[j].provider));
      AdmitsUnlessOver(r.Limits().value, r.Month(), records, r.Plan()[j].provider, r.Estimate(j), r.Now(j));
    }
  }

  // ----- Ledgers -----

  function Flatten(ledger: seq<seq<UsageRecord>>): seq<UsageRecord> {
    if ledger == [] then [] else Flatten(ledger[..|ledger| - 1]) + ledger[|ledger| - 1]
  }

  lemma FlattenAppend(records: seq<UsageRecord>, ledger: seq<seq<UsageRecord>>, recs: seq<UsageRecord>)
    ensures records + Flatten(ledger + [recs]) == records + Flatten(ledger) + recs
  {
    assert (ledger + [recs])[..|ledger|] == ledger;
  }

  lemma {:induction false} FlattenLast(records: seq<UsageRecord>, ledger: seq<seq<UsageRecord>>)
    requires ledger != []
    ensures records + Flatten(ledger) == records + Flatten(ledger[..|ledger| - 1]) + ledger[|ledger| - 1]
  {
  }

  /** The ledger that attempt `j` of a request read. */
  ghost function Before(records: seq<UsageRecord>, ledger: seq<seq<UsageRecord>>, j: nat): seq<UsageRecord>
    requires j <= |ledger|
  {
    records + Flatten(ledger[..j])
  }

  lemma BeforeInFront(records: seq<UsageRecord>, ledger: seq<seq<UsageRecord>>, j: nat)
    requires j < |ledger|
    ensures Before(records, ledger[..|ledger| - 1], j) == Before(records, ledger, j)
  {
    assert ledger[..|ledger| - 1][..j] == ledger[..j];
  }

  /** An attempt loop as its ledger sees it: what attempt `j` books on top of a ledger, and whether it leads on. */
  datatype AttemptLoop = AttemptLoop(
    attempts: nat,
    books: (nat, seq<UsageRecord>) -> seq<UsageRecord>,
    leads: (nat, seq<UsageRecord>) -> bool)

  ghost predicate LastLeads(l: AttemptLoop, records: seq<UsageRecord>, ledger: seq<seq<UsageRecord>>) {
    0 < |ledger| <= l.attempts && l.leads(|ledger| - 1, Before(records, ledger, |ledger| - 1))
  }

  /** The records of attempts 0, 1, ... of a loop: all but the last attempt led on. */
  ghost predicate Chain(l: AttemptLoop, records: seq<UsageRecord>, ledger: seq<seq<UsageRecord>>) {
    ledger == [] || (
      var front, last := ledger[..|ledger| - 1], |ledger| - 1;
      && last < l.attempts && Chain(l, records, front) && (front != [] ==> LastLeads(l, records, front))
      && ledger[last] == l.books(last, records + Flatten(front)))
  }

  lemma ChainGrows(l: AttemptLoop, records: seq<UsageRecord>, ledger: seq<seq<UsageRecord>>)
    requires Chain(l, records, ledger) && |ledger| < l.attempts && (ledger != [] ==> LastLeads(l, records, ledger))
    ensures var ledger' := ledger + [l.books(|ledger|, records + Flatten(ledger))];
            && Chain(l, records, ledger')
            && (LastLeads(l, records, ledger') <==> l.leads(|ledger|, records + Flatten(ledger)))
  {
    var ledger' := ledger + [l.books(|ledger|, records + Flatten(ledger))];
    assert ledger'[..|ledger|] == ledger;
  }

  lemma {:induction false} ChainAt(l: AttemptLoop, records: seq<UsageRecord>, ledger: seq<seq<UsageRecord>>, j: nat)
    requires Chain(l, records, ledger) && j < |ledger|
    ensures |ledger| <= l.attempts
    ensures ledger[j] == l.books(j, Before(records, ledger, j))
    ensures j + 1 < |ledger| ==> l.leads(j, Before(records, ledger, j))
    decreases |ledger|
  {
    if j + 1 < |ledger| {
      ChainAt(l, records, ledger[..|ledger| - 1], j);
      BeforeInFront(records, ledger, j);
    }
  }

  /** The attempt loop of a request. */
  ghost function LoopOf(r: Request): AttemptLoop {
    AttemptLoop(
      |r.Plan()|,
      (j: nat, records: seq<UsageRecord>) => if j < |r.Plan()| then r.Expected(j, records) else [],
      (j: nat, records: seq<UsageRecord>) => j < |r.Plan()| && r.LeadsOn(j, records))
  }

  /** The last of the attempts booked in `ledger` led on to the next route. */
  ghost predicate LastLedOn(r: Request, records: seq<UsageRecord>, ledger: seq<seq<UsageRecord>>) {
    LastLeads(LoopOf(r), records, ledger)
  }

  /**
   * The records of attempts 0, 1, ... of one request: each is what the attempt books on top of the ledger its budget
   * check read, and all but the last attempt led on to the next route.
   */
  ghost predicate LedgerOf(r: Request, records: seq<UsageRecord>, ledger: seq<seq<UsageRecord>>) {
    Chain(LoopOf(r), records, ledger)
  }

  /** The ledger of a request that is over: the last attempt did not lead on. */
  ghost predicate Served(r: Request, records: seq<UsageRecord>, ledger: seq<seq<UsageRecord>>) {
    LedgerOf(r, records, ledger) && !LastLedOn(r, records, ledger) && (r.Plan() != [] ==> ledger != [])
  }

  /**
   * Attempt `j` booked `recs` on top of `records`, and led on or not. The quantifier keeps it folded: it is looked into
   * only where `Expected` or `LeadsOn` is mentioned.
   */
  ghost predicate Attempted(r: Request, j: nat, records: seq<UsageRecord>, recs: seq<UsageRecord>, next: bool)
    requires j < |r.Plan()|
  {
    forall before {:trigger r.Expected(j, before)} {:trigger r.LeadsOn(j, before)} :: before == records ==>
      recs == r.Expected(j, before) && (next <==> r.LeadsOn(j, before))
  }

  lemma AttemptedFacts(r: Request, j: nat, records: seq<UsageRecord>, recs: seq<UsageRecord>, next: bool)
    requires j < |r.Plan()| && Attempted(r, j, records, recs, next)
    ensures |recs| > 0 && forall n :: 0 <= n < |recs| ==> recs[n].provider == r.Plan()[j].provider
    ensures r.Plain? ==> |recs| == 1
    ensures next ==> recs[|recs| - 1].status != Success && r.CanFallback(j)
  {
    ExpectedFacts(r, j, records);
  }

  lemma LedgerGrows(r: Request, records: seq<UsageRecord>, ledger: seq<seq<UsageRecord>>, recs: seq<UsageRecord>,
                    next: bool)
    requires LedgerOf(r, records, ledger) && |ledger| < |r.Plan()| && (ledger != [] ==> LastLedOn(r, records, ledger))
    requires Attempted(r, |ledger|, records + Flatten(ledger), recs, next)
    ensures LedgerOf(r, records, ledger + [recs])
    ensures LastLedOn(r, records, ledger + [recs]) <==> next
  {
    ChainGrows(LoopOf(r), records, ledger);
    assert recs == r.Expected(|ledger|, records + Flatten(ledger));
  }

  lemma LedgerAt(r: Request, records: seq<UsageRecord>, ledger: seq<seq<UsageRecord>>, j: nat)
    requires LedgerOf(r, records, ledger) && j < |ledger|
    ensures |ledger| <= |r.Plan()|
    ensures ledger[j] == r.Expected(j, Before(records, ledger, j))
    ensures j + 1 < |ledger| ==> r.LeadsOn(j, Before(records, ledger, j))
  {
    ChainAt(LoopOf(r), records, ledger, j);
  }

  /** The ledger as it should be: one record per attempt, numbered without gaps, and only the last one final. */
  ghost predicate LedgerShape(delta: seq<UsageRecord>, attempts: nat, success: bool) {
    && |delta| == attempts
    && forall j :: 0 <= j < |delta| ==>
         && delta[j].attemptIndex == j
         && (j + 1 < |delta| ==> delta[j].status == Error || delta[j].status == Skipped)
         && (delta[j].status == Success <==> j + 1 == |delta| && success)
  }

  lemma {:induction false} FlattenSingles(ledger: seq<seq<UsageRecord>>)
    requires forall j :: 0 <= j < |ledger| ==> |ledger[j]| == 1
    ensures |Flatten(ledger)| == |ledger|
    ensures forall j :: 0 <= j < |ledger| ==> Flatten(ledger)[j] == ledger[j][0]
  {
    if ledger != [] {
      FlattenSingles(ledger[..|ledger| - 1]);
    }
  }

  lemma {:induction false} FlattenLonger(ledger: seq<seq<UsageRecord>>, k: nat)
    requires forall j :: 0 <= j < |ledger| ==> |ledger[j]| >= 1
    requires k < |ledger| ==> |ledger[k]| > 1
    ensures |Flatten(ledger)| >= |ledger|
    ensures k < |ledger| ==> |Flatten(ledger)| > |ledger|
  {
    if ledger != [] {
      FlattenLonger(ledger[..|ledger| - 1], k);
    }
  }

  /** The status of the last record of the last attempt. */
  ghost function LastStatus(ledger: seq<seq<UsageRecord>>): Status {
    if ledger == [] || ledger[|ledger| - 1] == [] then Skipped
    else ledger[|ledger| - 1][|ledger[|ledger| - 1]| - 1].status
  }

  lemma LastStatusOf(ledger: seq<seq<UsageRecord>>, recs: seq<UsageRecord>)
    requires recs != []
    ensures LastStatus(ledger + [recs]) == recs[|recs| - 1].status
  {
  }

  /** One record per attempt, numbered in order, all but the last leading on. */
  ghost predicate InOrder(ledger: seq<seq<UsageRecord>>) {
    forall j :: 0 <= j < |ledger| ==>
      && |ledger[j]| == 1 && ledger[j][0].attemptIndex == j
      && (j + 1 < |ledger| ==> ledger[j][0].status == Error || ledger[j][0].status == Skipped)
  }

  lemma SinglesAreInShape(ledger: seq<seq<UsageRecord>>)
    requires InOrder(ledger)
    ensures LedgerShape(Flatten(ledger), |ledger|, LastStatus(ledger) == Success)
  {
    FlattenSingles(ledger);
  }

  /** Attempt `j` of the ledger: how many records, which number, and what they allow to follow. */
  lemma LedgerFactsAt(r: Request, records: seq<UsageRecord>, ledger: seq<seq<UsageRecord>>, j: nat)
    requires LedgerOf(r, records, ledger) && j < |ledger|
    ensures |ledger| <= |r.Plan()|
    ensures |ledger[j]| == if r.DoubleBooked(j, Before(records, ledger, j)) then 2 else 1
    ensures ledger[j][0].attemptIndex == j
    ensures j + 1 < |ledger| && |ledger[j]| == 1 ==> ledger[j][0].status == Error || ledger[j][0].status == Skipped
  {
    LedgerAt(r, records, ledger, j);
    ExpectedFacts(r, j, Before(records, ledger, j));
  }

  /** No attempt of the request was double-booked. */
  ghost predicate BookedOnce(r: Request, records: seq<UsageRecord>, ledger: seq<seq<UsageRecord>>)
    requires |ledger| <= |r.Plan()|
  {
    forall j :: 0 <= j < |ledger| ==> !r.DoubleBooked(j, Before(records, ledger, j))
  }

  lemma LedgerFits(r: Request, records: seq<UsageRecord>, ledger: seq<seq<UsageRecord>>)
    requires LedgerOf(r, records, ledger)
    ensures |ledger| <= |r.Plan()|
  {
  }

  /**
   * The usage ledger of a request is as it should be if and only if none of its attempts got through the gate and then
   * failed with an empty message before showing anything and without falling back.
   */
  lemma LedgerShapeIff(r: Request, records: seq<UsageRecord>, ledger: seq<seq<UsageRecord>>)
    requires LedgerOf(r, records, ledger)
    ensures |ledger| <= |r.Plan()|
    ensures LedgerShape(Flatten(ledger), |ledger|, LastStatus(ledger) == Success) <==> BookedOnce(r, records, ledger)
  {
    LedgerFits(r, records, ledger);
    forall j | 0 <= j < |ledger|
      ensures |ledger[j]| == if r.DoubleBooked(j, Before(records, ledger, j)) then 2 else 1
      ensures ledger[j][0].attemptIndex == j
      ensures j + 1 < |ledger| && |ledger[j]| == 1 ==> ledger[j][0].status == Error || ledger[j][0].status == Skipped
    {
      LedgerFactsAt(r, records, ledger, j);
    }
    if j :| 0 <= j < |ledger| && r.DoubleBooked(j, Before(records, ledger, j)) {
      FlattenLonger(ledger, j);
    } else {
      SinglesAreInShape(ledger);
    }
  }

  /** The usage ledger of a plain request, without any condition. */
  lemma PlainLedgerShape(q: PlainRequest, records: seq<UsageRecord>, ledger: seq<seq<UsageRecord>>)
    requires LedgerOf(Plain(q), records, ledger)
    ensures LedgerShape(Flatten(ledger), |ledger|, LastStatus(ledger) == Success)
  {
    LedgerShapeIff(Plain(q), records, ledger);
  }

  // ----- Spending -----

  /** Reported cost stays within the estimate, and the record is stamped in the day and month of the budget reading. */
  ghost predicate Honest(r: Request, j: nat) {
    && Amount(NormalizeUsd(r.Cost(j))) <= Amount(NormalizeUsd(r.Estimate(j)))
    && StartOfDay(r.Stamp(j)) == StartOfDay(r.Now(j)) && r.Month()(r.Stamp(j)) == r.Month()(r.Now(j))
  }

  /** One attempt keeps every limit, whatever its kind. */
  lemma AttemptKeepsLimits(r: Request, settings: Settings, records: seq<UsageRecord>, j: nat)
    requires r.Limits() == Some(settings) && j < |r.Plan()| && Honest(r, j)
    requires IsCalendar(r.Month()) && WithinLimits(settings, r.Month(), records) && NotAfter(records, r.Now(j))
    ensures WithinLimits(settings, r.Month(), records + r.Expected(j, records))
  {
    ExpectedFacts(r, j, records);
    var recs := r.Expected(j, records);
    if CostOf(recs[0]) == 0 {
      FreeRecordsAreSafe(settings, r.Month(), records, recs[0]);
    } else {
      AdmittedRecordIsSafe(settings, r.Month(), records, recs[0], r.Estimate(j), r.Now(j));
    }
    if |recs| == 2 {
      FreeRecordsAreSafe(settings, r.Month(), records + [recs[0]], recs[1]);
      assert records + [recs[0]] + [recs[1]] == records + recs;
    } else {
      assert [recs[0]] == recs;
    }
  }

  /** The clock does not run backwards: nothing recorded so far is later than any budget reading still to come. */
  ghost predicate ClockFor(records: seq<UsageRecord>, r: Request) {
    && (forall j :: 0 <= j < |r.Plan()| ==> NotAfter(records, r.Now(j)))
    && (forall i, j :: 0 <= i < j < |r.Plan()| ==> r.Stamp(i) <= r.Now(j))
  }

  /** What one attempt keeps, all attempts of a loop keep, however many there are. */
  lemma {:induction false} ChainKeeps(l: AttemptLoop, records: seq<UsageRecord>, ledger: seq<seq<UsageRecord>>,
                                      inv: (nat, seq<UsageRecord>) -> bool)
    requires Chain(l, records, ledger) && inv(0, records)
    requires forall j: nat, before :: j < l.attempts && inv(j, before) ==> inv(j + 1, before + l.books(j, before))
    ensures inv(|ledger|, records + Flatten(ledger))
    decreases |ledger|
  {
    if ledger == [] {
      assert records + Flatten(ledger) == records;
    } else {
      ChainKeeps(l, records, ledger[..|ledger| - 1], inv);
      FlattenLast(records, ledger);
    }
  }

  lemma AttemptNotAfter(r: Request, records: seq<UsageRecord>, j: nat, t: int)
    requires j < |r.Plan()| && NotAfter(records, t) && r.Stamp(j) <= t
    ensures NotAfter(records + r.Expected(j, records), t)
  {
    ExpectedFacts(r, j, records);
  }

  /** Nothing a request books is later than `t` when none of its stamps is. */
  lemma LedgerNotAfter(r: Request, records: seq<UsageRecord>, ledger: seq<seq<UsageRecord>>, t: int)
    requires LedgerOf(r, records, ledger) && NotAfter(records, t)
    requires forall j :: 0 <= j < |r.Plan()| ==> r.Stamp(j) <= t
    ensures NotAfter(records + Flatten(ledger), t)
  {
    var l, inv := LoopOf(r), (j: nat, before: seq<UsageRecord>) => NotAfter(before, t);
    forall j: nat, before | j < l.attempts && inv(j, before) ensures inv(j + 1, before + l.books(j, before)) {
      AttemptNotAfter(r, before, j, t);
    }
    ChainKeeps(l, records, ledger, inv);
  }

  /** The limits hold, and nothing is booked later than the budget readings from attempt `j` on. */
  ghost predicate SafeFrom(r: Request, settings: Settings, j: nat, records: seq<UsageRecord>) {
    && WithinLimits(settings, r.Month(), records)
    && forall i :: j <= i < |r.Plan()| ==> NotAfter(records, r.Now(i))
  }

  lemma AttemptIsSafe(r: Request, settings: Settings, j: nat, records: seq<UsageRecord>)
    requires r.Limits() == Some(settings) && IsCalendar(r.Month()) && j < |r.Plan()| && Honest(r, j)
    requires forall i :: j < i < |r.Plan()| ==> r.Stamp(j) <= r.Now(i)
    requires SafeFrom(r, settings, j, records)
    ensures SafeFrom(r, settings, j + 1, records + r.Expected(j, records))
  {
    AttemptKeepsLimits(r, settings, records, j);
    forall i | j + 1 <= i < |r.Plan()| ensures NotAfter(records + r.Expected(j, records), r.Now(i)) {
      AttemptNotAfter(r, records, j, r.Now(i));
    }
  }

  /** Spending safety of one request: its fallbacks read the ledger again, so together they keep every limit. */
  lemma RequestKeepsLimits(r: Request, settings: Settings, records: seq<UsageRecord>, ledger: seq<seq<UsageRecord>>)
    requires r.Limits() == Some(settings) && IsCalendar(r.Month()) && WithinLimits(settings, r.Month(), records)
    requires LedgerOf(r, records, ledger) && ClockFor(records, r)
    requires forall j :: 0 <= j < |r.Plan()| ==> Honest(r, j)
    ensures WithinLimits(settings, r.Month(), records + Flatten(ledger))
  {
    var l, inv := LoopOf(r), (j: nat, before: seq<UsageRecord>) => SafeFrom(r, settings, j, before);
    forall j: nat, before | j < l.attempts && inv(j, before) ensures inv(j + 1, before + l.books(j, before)) {
      AttemptIsSafe(r, settings, j, before);
    }
    ChainKeeps(l, records, ledger, inv);
  }

  // ----- The list of failed attempts -----

  /** The entries of the attempts booked in `ledger`, in order. */
  ghost function ErrorsSoFar(r: Request, records: seq<UsageRecord>, ledger: seq<seq<UsageRecord>>): seq<AttemptError> {
    if ledger == [] || |r.Plan()| < |ledger| then []
    else
      var front, last := ledger[..|ledger| - 1], |ledger| - 1;
      ErrorsSoFar(r, records, front) + r.Errors(last, records + Flatten(front))
  }

  /** Attempt `j` added its entries to the list. The quantifier keeps it folded. */
  ghost predicate Noted(r: Request, j: nat, records: seq<UsageRecord>, errors: seq<AttemptError>,
                        errors': seq<AttemptError>)
    requires j < |r.Plan()|
  {
    forall before {:trigger r.Errors(j, before)} :: before == records ==> errors' == errors + r.Errors(j, before)
  }

  lemma NotedNext(r: Request, records: seq<UsageRecord>, ledger: seq<seq<UsageRecord>>, recs: seq<UsageRecord>,
                  errors: seq<AttemptError>, errors': seq<AttemptError>)
    requires |ledger| < |r.Plan()| && errors == ErrorsSoFar(r, records, ledger)
    requires Noted(r, |ledger|, records + Flatten(ledger), errors, errors')
    ensures errors' == ErrorsSoFar(r, records, ledger + [recs])
  {
    assert (ledger + [recs])[..|ledger|] == ledger;
    assert errors' == errors + r.Errors(|ledger|, records + Flatten(ledger));
  }

  // ----- A streaming request -----

  /** The response of a streaming request that made `|ledger|` attempts. */
  ghost predicate StreamAnswered(response: ServerResponse, q: StreamRequest, records: seq<UsageRecord>,
                                 ledger: seq<seq<UsageRecord>>)
    reads response
  {
    if q.plan == [] then response.ended && response.status == Some(502) && response.body == Some(AllFailed([]))
    else
      var last := |ledger| - 1;
      && ledger != [] && Answered(response, last)
      && Carries(response.frames, last, q.attempt(last).events[..Prefix(q.attempt(last).events)])
      && (Succeeded(response) <==> LastStatus(ledger) == Success)
      && (response.status == Some(402) <==> LastStatus(ledger) == Skipped)
      && (response.body.Some? ==>
           && !response.body.value.Completion? && ListsAll(response.body.value.attempts, ledger)
           && response.body.value.attempts == ErrorsSoFar(Streamed(q), records, ledger))
      && Closes(response, last, q.attempt(last), Prefix(q.attempt(last).events),
                Swallowed(q.attempt(last), last + 1 < |q.plan|, q.judge))
  }

  /** A list of failed attempts: one entry for each record, of the same provider and in the same order. */
  ghost predicate ListsAll(errors: seq<AttemptError>, ledger: seq<seq<UsageRecord>>) {
    var records := Flatten(ledger);
    |errors| == |records| && forall k :: 0 <= k < |errors| ==> errors[k].provider == records[k].provider
  }

  lemma ListsMore(errors: seq<AttemptError>, errors': seq<AttemptError>, ledger: seq<seq<UsageRecord>>,
                  recs: seq<UsageRecord>, route: Route)
    requires ListsAll(errors, ledger) && errors <= errors' && |errors'| == |errors| + |recs|
    requires forall k :: |errors| <= k < |errors'| ==> errors'[k].provider == route.provider
    requires forall k :: 0 <= k < |recs| ==> recs[k].provider == route.provider
    ensures ListsAll(errors', ledger + [recs])
  {
    FlattenAppend([], ledger, recs);
  }

  /** One attempt of a streaming request, as the request sees it. */
  method AttemptRoute(response: ServerResponse, store: UsageStore, q: StreamRequest, i: nat, errors: seq<AttemptError>)
    returns (next: bool, errors': seq<AttemptError>, ghost recs: seq<UsageRecord>)
    requires response.Untouched() && i < |q.plan|
    modifies response, store
    ensures store.records == old(store.records) + recs && recs != []
    ensures Attempted(Streamed(q), i, old(store.records), recs, next)
    ensures Left(response, i, next, i + 1 < |q.plan|, recs[|recs| - 1].status)
    ensures Carries(response.frames, i, q.attempt(i).events[..Prefix(q.attempt(i).events)])
    ensures Lists(response, next, q.plan[i], |recs|, errors, errors')
    ensures Noted(Streamed(q), i, old(store.records), errors, errors')
    ensures var a := q.attempt(i); Closes(response, i, a, Prefix(a.events), Swallowed(a, i + 1 < |q.plan|, q.judge))
  {
    next, errors', recs := RunStreamAttempt(response, store, q.settings, q.month, q.plan[i], i, i < |q.plan| - 1,
                                            q.attempt(i), q.judge, errors);
  }

  method NextStreamAttempt(response: ServerResponse, store: UsageStore, q: StreamRequest, i: nat,
                           errors: seq<AttemptError>, ghost records: seq<UsageRecord>,
                           ghost ledger: seq<seq<UsageRecord>>)
    returns (next: bool, errors': seq<AttemptError>, ghost ledger': seq<seq<UsageRecord>>)
    requires response.Untouched() && |ledger| == i < |q.plan| && (i > 0 ==> LastLedOn(Streamed(q), records, ledger))
    requires store.records == records + Flatten(ledger) && LedgerOf(Streamed(q), records, ledger)
    requires ListsAll(errors, ledger) && errors == ErrorsSoFar(Streamed(q), records, ledger)
    modifies response, store
    ensures store.records == records + Flatten(ledger') && LedgerOf(Streamed(q), records, ledger') && |ledger'| == i + 1
    ensures next <==> LastLedOn(Streamed(q), records, ledger')
    ensures next ==> response.Untouched() && i + 1 < |q.plan|
    ensures next ==> ListsAll(errors', ledger') && errors' == ErrorsSoFar(Streamed(q), records, ledger')
    ensures !next ==> StreamAnswered(response, q, records, ledger')
  {
    ghost var recs;
    next, errors', recs := AttemptRoute(response, store, q, i, errors);
    AttemptedFacts(Streamed(q), i, records + Flatten(ledger), recs, next);
    LedgerGrows(Streamed(q), records, ledger, recs, next);
    FlattenAppend(records, ledger, recs);
    LastStatusOf(ledger, recs);
    NotedNext(Streamed(q), records, ledger, recs, errors, errors');
    if next || response.body.Some? {
      ListsMore(errors, errors', ledger, recs, q.plan[i]);
    }
    ledger' := ledger + [recs];
  }

  /**
   * A streaming request. For a non-empty plan the document after the loop is never reached: the last attempt made is
   * the one that answers, and every attempt before it sent nothing.
   */
  method HandleStreaming(response: ServerResponse, store: UsageStore, q: StreamRequest)
    returns (ghost ledger: seq<seq<UsageRecord>>)
    requires response.Untouched()
    modifies response, store
    ensures store.records == old(store.records) + Flatten(ledger)
    ensures Served(Streamed(q), old(store.records), ledger)
    ensures StreamAnswered(response, q, old(store.records), ledger)
  {
    ghost var records := store.records;
    var errors: seq<AttemptError> := [];
    ledger := [];
    assert records + Flatten(ledger) == records;
    for i := 0 to |q.plan|
      invariant response.Untouched() && |ledger| == i
      invariant if i == 0 then errors == [] else i < |q.plan| && LastLedOn(Streamed(q), records, ledger)
      invariant ListsAll(errors, ledger) && errors == ErrorsSoFar(Streamed(q), records, ledger)
      invariant store.records == records + Flatten(ledger) && LedgerOf(Streamed(q), records, ledger)
    {
      var next;
      next, errors, ledger := NextStreamAttempt(response, store, q, i, errors, records, ledger);
      if !next {
        return;
      }
    }
    response.WriteJson(502, AllFailed(errors));
  }

  /**
   * An aborted attempt with an empty message: it is booked twice, first as aborted and then as an error, and the
   * request goes on to the next provider, which answers.
   */
  method SwallowedAbort(store: UsageStore, first: Route, second: Route)
    returns (response: ServerResponse, ghost ledger: seq<seq<UsageRecord>>)
    modifies store
    ensures fresh(response) && store.records == old(store.records) + Flatten(ledger)
    ensures |ledger| == 2 && |ledger[0]| == 2 && ledger[0][0].status == Aborted && ledger[0][1].status == Error
    ensures Answered(response, 1) && Succeeded(response) && !LedgerShape(Flatten(ledger), |ledger|, true)
  {
    var aborted := StreamAttempt(0, 0, None, [Failed(true, Some(""), None)], None);
    var fine := StreamAttempt(0, 0, None, [Completed("stop", None)], None);
    var q := StreamRequest([first, second], None, t => t, (j: nat) => if j == 0 then aborted else fine, _ => true);
    assert FramesOf(0, aborted.events[..0]) == [] && FramesOf(0, fine.events[..0]) == [];
    response := new ServerResponse();
    ledger := HandleStreaming(response, store, q);
    ghost var records := old(store.records);
    LedgerAt(Streamed(q), records, ledger, 0);
    assert Streamed(q).LeadsOn(0, Before(records, ledger, 0));
    assert ledger[..0] == [];
    assert |ledger| == 2;
    LedgerAt(Streamed(q), records, ledger, 1);
    FlattenLonger(ledger, 0);
  }

  // ----- A plain request -----

  /** One pass of the plain attempt loop: exactly one record, and the decision to go on to the next route. */
  method RunPlainAttempt(store: UsageStore, q: PlainRequest, j: nat, errors: seq<AttemptError>)
    returns (next: bool, blocked: bool, errors': seq<AttemptError>, ghost recs: seq<UsageRecord>)
    requires j < |q.plan|
    modifies store
    ensures store.records == old(store.records) + recs && |recs| == 1
    ensures Attempted(Plain(q), j, old(store.records), recs, next)
    ensures recs[0].status == if blocked then Skipped else PlainStatus(q.attempt(j).outcome)
    ensures var o := q.attempt(j).outcome;
            if blocked then recs[0].cost == None
            else HasStatus(o, recs[0].status) && recs[0].cost == if o.Replied? then o.cost else None
    ensures Noted(Plain(q), j, old(store.records), errors, errors')
    ensures recs[0].status != Success ==>
      && errors <= errors' && |errors'| == |errors| + 1
      && forall k :: |errors| <= k < |errors'| ==> errors'[k].provider == q.plan[j].provider
  {
    var a := q.attempt(j);
    var route := q.plan[j];
    var canFallback := j < |q.plan| - 1;
    blocked := Gate(q.settings, q.month, store, route, a.estimate, a.now);
    if blocked {
      var r := UsageRecord(a.timestamp, route.provider, j, Skipped, None);
      store.Record(r);
      return canFallback, blocked, errors + [ErrorOf(route, BUDGET_MESSAGE, canFallback)], [r];
    }
    var status := PlainStatus(a.outcome);
    var r := UsageRecord(a.timestamp, route.provider, j, status, PlainCost(a.outcome));
    store.Record(r);
    if status == Success {
      return false, blocked, errors, [r];
    }
    var message := PlainMessage(a.outcome);
    next := ShouldFallback(canFallback, message, status == Aborted, q.judge);
    errors' := errors + [ErrorOf(route, message, next)];
    recs := [r];
  }

  /** The one response of a plain request that made `|ledger|` attempts. */
  ghost predicate PlainAnswered(response: ServerResponse, q: PlainRequest, records: seq<UsageRecord>,
                                ledger: seq<seq<UsageRecord>>)
    reads response
  {
    && (response.body.Some? && !response.body.value.Completion? ==>
         response.body.value.attempts == ErrorsSoFar(Plain(q), records, ledger))
    && response.ended && response.frames == [] && response.status.Some? && response.body.Some?
    && (response.status.value == 200 <==> LastStatus(ledger) == Success)
    && match response.body.value
       case Completion(attempt) => response.status == Some(200) && attempt + 1 == |ledger|
       case BudgetLimit(errors) =>
         response.status == Some(402) && LastStatus(ledger) == Skipped && ListsAll(errors, ledger)
       case AllFailed(errors) => response.status == Some(502) && ListsAll(errors, ledger)
       case RoutedFailure(_, _) => false
  }

  method NextPlainAttempt(store: UsageStore, q: PlainRequest, j: nat, errors: seq<AttemptError>,
                          ghost records: seq<UsageRecord>, ghost ledger: seq<seq<UsageRecord>>)
    returns (next: bool, blocked: bool, errors': seq<AttemptError>, ghost ledger': seq<seq<UsageRecord>>)
    requires j < |q.plan| && |ledger| == j && ListsAll(errors, ledger)
    requires errors == ErrorsSoFar(Plain(q), records, ledger)
    requires j > 0 ==> LastLedOn(Plain(q), records, ledger)
    requires store.records == records + Flatten(ledger) && LedgerOf(Plain(q), records, ledger)
    modifies store
    ensures store.records == records + Flatten(ledger') && LedgerOf(Plain(q), records, ledger') && |ledger'| == j + 1
    ensures LastStatus(ledger') == if blocked then Skipped else PlainStatus(q.attempt(j).outcome)
    ensures next <==> LastLedOn(Plain(q), records, ledger')
    ensures next ==> j + 1 < |q.plan| && LastStatus(ledger') != Success
    ensures LastStatus(ledger') != Success ==> ListsAll(errors', ledger')
    ensures errors' == ErrorsSoFar(Plain(q), records, ledger')
  {
    ghost var recs;
    next, blocked, errors', recs := RunPlainAttempt(store, q, j, errors);
    AttemptedFacts(Plain(q), j, records + Flatten(ledger), recs, next);
    LedgerGrows(Plain(q), records, ledger, recs, next);
    FlattenAppend(records, ledger, recs);
    LastStatusOf(ledger, recs);
    NotedNext(Plain(q), records, ledger, recs, errors, errors');
    if recs[0].status != Success {
      ListsMore(errors, errors', ledger, recs, q.plan[j]);
    }
    ledger' := ledger + [recs];
  }

  /** A plain request: its failure document lists every attempt. */
  method HandlePlain(response: ServerResponse, store: UsageStore, q: PlainRequest)
    returns (ghost ledger: seq<seq<UsageRecord>>)
    requires response.Untouched()
    modifies response, store
    ensures store.records == old(store.records) + Flatten(ledger)
    ensures Served(Plain(q), old(store.records), ledger)
    ensures PlainAnswered(response, q, old(store.records), ledger)
  {
    ghost var records := store.records;
    var errors: seq<AttemptError> := [];
    ledger := [];
    assert records + Flatten(ledger) == records;
    var j, next := 0, true;
    while j < |q.plan| && next
      invariant j <= |q.plan| && |ledger| == j && ListsAll(errors, ledger)
      invariant errors == ErrorsSoFar(Plain(q), records, ledger)
      invariant store.records == records + Flatten(ledger) && LedgerOf(Plain(q), records, ledger)
      invariant response.Untouched() && LastStatus(ledger) != Success
      invariant if j == 0 then next else (next <==> LastLedOn(Plain(q), records, ledger)) && (next ==> j < |q.plan|)
    {
      var blocked;
      next, blocked, errors, ledger := NextPlainAttempt(store, q, j, errors, records, ledger);
      if !blocked && PlainStatus(q.attempt(j).outcome) == Success {
        response.WriteJson(200, Completion(j));
        return;
      }
      if blocked && !next {
        response.WriteJson(402, BudgetLimit(errors));
        return;
      }
      j := j + 1;
    }
    response.WriteJson(502, AllFailed(errors));
  }

  // ----- Many requests, one ledger -----

  /** All requests are gated by these settings, report honest costs, and follow one another on one clock. */
  ghost predicate AllFair(settings: Settings, month: int -> int, requests: seq<Request>) {
    && (forall k :: 0 <= k < |requests| ==>
         requests[k].Limits() == Some(settings) && requests[k].Month() == month
         && forall j :: 0 <= j < |requests[k].Plan()| ==> Honest(requests[k], j))
    && (forall k, l, i, j :: 0 <= k <= l < |requests| && 0 <= i < |requests[k].Plan()|
                             && 0 <= j < |requests[l].Plan()| && (k < l || i < j) ==>
         requests[k].Stamp(i) <= requests[l].Now(j))
  }

  /** The quantifier keeps it folded: it is looked into only where `AllFair` is mentioned. */
  ghost predicate Fair(settings: Settings, month: int -> int, requests: seq<Request>) {
    forall rs {:trigger AllFair(settings, month, rs)} :: rs == requests ==> AllFair(settings, month, rs)
  }

  /** Nothing recorded is later than any budget reading of the requests from `k` on. */
  ghost predicate ClockFrom(records: seq<UsageRecord>, requests: seq<Request>, k: nat) {
    forall l, j :: k <= l < |requests| && 0 <= j < |requests[l].Plan()| ==> NotAfter(records, requests[l].Now(j))
  }

  lemma OneRequestLater(settings: Settings, month: int -> int, requests: seq<Request>, k: nat,
                        records: seq<UsageRecord>, ledger: seq<seq<UsageRecord>>)
    requires Fair(settings, month, requests) && IsCalendar(month) && k < |requests|
    requires WithinLimits(settings, month, records) && ClockFrom(records, requests, k)
    requires LedgerOf(requests[k], records, ledger)
    ensures WithinLimits(settings, month, records + Flatten(ledger))
    ensures ClockFrom(records + Flatten(ledger), requests, k + 1)
  {
    var r := requests[k];
    assert AllFair(settings, month, requests);
    RequestKeepsLimits(r, settings, records, ledger);
    LedgerFits(r, records, ledger);
    forall l, j | k + 1 <= l < |requests| && 0 <= j < |requests[l].Plan()|
      ensures NotAfter(records + Flatten(ledger), requests[l].Now(j))
    {
      LedgerNotAfter(r, records, ledger, requests[l].Now(j));
    }
  }

  /** The records of several requests, one request after the other. */
  function AllRecords(ledgers: seq<seq<seq<UsageRecord>>>): seq<UsageRecord> {
    if ledgers == [] then [] else AllRecords(ledgers[..|ledgers| - 1]) + Flatten(ledgers[|ledgers| - 1])
  }

  /** Each request was served on top of the records of the requests before it. */
  ghost predicate ServedInTurn(requests: seq<Request>, records: seq<UsageRecord>, ledgers: seq<seq<seq<UsageRecord>>>) {
    ledgers == [] || (
      var front, last := ledgers[..|ledgers| - 1], |ledgers| - 1;
      && last < |requests| && ServedInTurn(requests, records, front)
      && Served(requests[last], records + AllRecords(front), ledgers[last]))
  }

  /** The limits hold now, and held after each of the requests before. */
  ghost predicate LimitsKept(settings: Settings, month: int -> int, records: seq<UsageRecord>,
                             ledgers: seq<seq<seq<UsageRecord>>>)
  {
    && WithinLimits(settings, month, records + AllRecords(ledgers))
    && (ledgers != [] ==> LimitsKept(settings, month, records, ledgers[..|ledgers| - 1]))
  }

  lemma ServedNext(requests: seq<Request>, records: seq<UsageRecord>, ledgers: seq<seq<seq<UsageRecord>>>,
                   ledger: seq<seq<UsageRecord>>)
    requires ServedInTurn(requests, records, ledgers) && |ledgers| < |requests|
    requires Served(requests[|ledgers|], records + AllRecords(ledgers), ledger)
    ensures ServedInTurn(requests, records, ledgers + [ledger])
  {
    assert (ledgers + [ledger])[..|ledgers|] == ledgers;
  }

  lemma AllRecordsAppend(records: seq<UsageRecord>, ledgers: seq<seq<seq<UsageRecord>>>, ledger: seq<seq<UsageRecord>>)
    ensures records + AllRecords(ledgers + [ledger]) == records + AllRecords(ledgers) + Flatten(ledger)
  {
    assert (ledgers + [ledger])[..|ledgers|] == ledgers;
  }

  /** Where a sequence of requests has got to: `now` is the ledger after the first `|ledgers|` of them. */
  ghost predicate Serving(settings: Settings, month: int -> int, requests: seq<Request>, records: seq<UsageRecord>,
                          ledgers: seq<seq<seq<UsageRecord>>>, now: seq<UsageRecord>)
  {
    && now == records + AllRecords(ledgers) && ServedInTurn(requests, records, ledgers)
    && LimitsKept(settings, month, records, ledgers) && ClockFrom(now, requests, |ledgers|)
  }

  lemma ServingStep(settings: Settings, month: int -> int, requests: seq<Request>, records: seq<UsageRecord>,
                    ledgers: seq<seq<seq<UsageRecord>>>, now: seq<UsageRecord>, ledger: seq<seq<UsageRecord>>)
    requires IsCalendar(month) && Fair(settings, month, requests)
    requires Serving(settings, month, requests, records, ledgers, now) && |ledgers| < |requests|
    requires Served(requests[|ledgers|], now, ledger)
    ensures Serving(settings, month, requests, records, ledgers + [ledger], now + Flatten(ledger))
  {
    OneRequestLater(settings, month, requests, |ledgers|, now, ledger);
    ServedNext(requests, records, ledgers, ledger);
    AllRecordsAppend(records, ledgers, ledger);
    assert (ledgers + [ledger])[..|ledgers|] == ledgers;
  }

  /** The quantifiers keep it folded. */
  ghost predicate AnsweredAs(r: Request, records: seq<UsageRecord>, ledger: seq<seq<UsageRecord>>,
                             response: ServerResponse)
    reads response
  {
    match r
    case Streamed(q) =>
      forall l {:trigger StreamAnswered(response, q, records, l)} :: l == ledger ==>
        StreamAnswered(response, q, records, l)
    case Plain(q) =>
      forall l {:trigger PlainAnswered(response, q, records, l)} :: l == ledger ==>
        PlainAnswered(response, q, records, l)
  }

  /** The first `|ledgers|` requests are answered, each by a response of its own. */
  ghost predicate AllAnswered(requests: seq<Request>, records: seq<UsageRecord>, ledgers: seq<seq<seq<UsageRecord>>>,
                              responses: seq<ServerResponse>)
    requires |responses| == |ledgers| <= |requests|
    reads responses
    decreases |ledgers|
  {
    ledgers == [] || (
      var front, last := ledgers[..|ledgers| - 1], |ledgers| - 1;
      && AllAnswered(requests, records, front, responses[..last])
      && AnsweredAs(requests[last], records + AllRecords(front), ledgers[last], responses[last])
      && responses[last] !in responses[..last])
  }

  lemma OneMoreAnswered(requests: seq<Request>, records: seq<UsageRecord>, ledgers: seq<seq<seq<UsageRecord>>>,
                        responses: seq<ServerResponse>, ledger: seq<seq<UsageRecord>>, response: ServerResponse)
    requires |responses| == |ledgers| < |requests| && AllAnswered(requests, records, ledgers, responses)
    requires AnsweredAs(requests[|ledgers|], records + AllRecords(ledgers), ledger, response) && response !in responses
    ensures AllAnswered(requests, records, ledgers + [ledger], responses + [response])
  {
    assert (ledgers + [ledger])[..|ledgers|] == ledgers && (responses + [response])[..|ledgers|] == responses;
  }

  /** One request with a response of its own. */
  method ServeOne(store: UsageStore, r: Request) returns (response: ServerResponse, ghost ledger: seq<seq<UsageRecord>>)
    modifies store
    ensures fresh(response) && AnsweredAs(r, old(store.records), ledger, response)
    ensures store.records == old(store.records) + Flatten(ledger) && Served(r, old(store.records), ledger)
  {
    response := new ServerResponse();
    match r {
      case Streamed(q) => ledger := HandleStreaming(response, store, q);
      case Plain(q) => ledger := HandlePlain(response, store, q);
    }
  }

  /** The next request, after those that are answered. */
  method ServeNext(store: UsageStore, requests: seq<Request>, responses: seq<ServerResponse>,
                   ghost records: seq<UsageRecord>, ghost ledgers: seq<seq<seq<UsageRecord>>>)
    returns (response: ServerResponse, ghost ledger: seq<seq<UsageRecord>>)
    requires |responses| == |ledgers| < |requests| && AllAnswered(requests, records, ledgers, responses)
    requires store.records == records + AllRecords(ledgers)
    modifies store
    ensures fresh(response) && AllAnswered(requests, records, ledgers + [ledger], responses + [response])
    ensures store.records == old(store.records) + Flatten(ledger)
    ensures Served(requests[|ledgers|], old(store.records), ledger)
  {
    response, ledger := ServeOne(store, requests[|responses|]);
    assert AllAnswered(requests, records, ledgers, responses);
    OneMoreAnswered(requests, records, ledgers, responses, ledger, response);
  }

  /**
   * Overspending through the gate, for every attempt whose record is stamped in another day than its budget reading
   * and for every padded provider name: the day's limit is spent, the request is admitted all the same, and its record
   * makes the provider exceed the limit.
   */
  method OverspendServed(month: int -> int, provider: string, stamp: int, now: int)
    returns (store: UsageStore, response: ServerResponse)
    requires stamp <= now && !(Queryable(provider) && StartOfDay(stamp) == StartOfDay(now))
    ensures fresh(store) && fresh(response) && response.ended && Succeeded(response)
    ensures |store.records| == 2 && store.records[1].provider == provider
    ensures Within(store.records[..1], provider, StartOfDay, Some(10))
    ensures !Within(store.records, provider, StartOfDay, Some(10))
  {
    var spent := UsageRecord(stamp, provider, 0, Success, Some(10));
    var settings := Settings(Rule(Some(Block), None, Some(10), None), map[]);
    var attempt := StreamAttempt(stamp, now, Some(10), [Completed("stop", Some(10))], None);
    var q := StreamRequest([Route(provider, "")], Some(settings), month, (j: nat) => attempt, _ => false);
    store := new UsageStore([spent]);
    OnceButNotTwice(spent, StartOfDay);
    UnseenIsAdmitted(settings, month, spent, now);
    ghost var ledger;
    response, ledger := ServeOne(store, Streamed(q));
    assert StreamAnswered(response, q, [spent], ledger);
    OneAttempt(q, [spent], ledger, attempt);
    assert store.records == [spent] + [spent];
  }

  /** A record the budget query does not see leaves room for its own cost. */
  lemma UnseenIsAdmitted(settings: Settings, month: int -> int, r: UsageRecord, now: int)
    requires settings == Settings(Rule(Some(Block), None, Some(10), None), map[])
    requires r.timestamp <= now && !(Queryable(r.provider) && StartOfDay(r.timestamp) == StartOfDay(now))
    ensures Admits(settings, month, [r], r.provider, Some(10), now)
  {
    DaysAreACalendar();
    assert !Matches(r, StartOfDay(now), now, NormalizeProvider(r.provider));
    assert [r][..0] == [];
    assert SumUsage([r], StartOfDay(now), now, NormalizeProvider(r.provider)) == 0;
  }

  /** A request with one route whose attempt is admitted and completes at once. */
  lemma OneAttempt(q: StreamRequest, records: seq<UsageRecord>, ledger: seq<seq<UsageRecord>>, a: StreamAttempt)
    requires |q.plan| == 1 && q.attempt(0) == a && Served(Streamed(q), records, ledger)
    requires !Streamed(q).BlockedAt(0, records)
    requires |a.events| == 1 && a.events[0].Completed?
    ensures ledger == [[RecordOf(a, q.plan[0], 0, Success, a.events[0].cost)]]
    ensures Flatten(ledger) == ledger[0]
  {
    LedgerFits(Streamed(q), records, ledger);
    LedgerAt(Streamed(q), records, ledger, 0);
    assert ledger[..0] == [] && records + [] == records;
    assert ledger == [] + [ledger[0]];
  }

  /**
   * Spending safety over whole runs: however many requests with however many fallbacks are served one after the other,
   * the ledger gains exactly their records, and no blocking limit of any provider is ever exceeded in any day or
   * month; and each request gets one response of its own, which agrees with its records.
   */
  method ServeAll(store: UsageStore, settings: Settings, month: int -> int, requests: seq<Request>)
    returns (responses: seq<ServerResponse>, ghost ledgers: seq<seq<seq<UsageRecord>>>)
    requires IsCalendar(month) && Fair(settings, month, requests)
    requires WithinLimits(settings, month, store.records) && ClockFrom(store.records, requests, 0)
    modifies store
    ensures |responses| == |ledgers| == |requests|
    ensures store.records == old(store.records) + AllRecords(ledgers)
    ensures ServedInTurn(requests, old(store.records), ledgers)
    ensures LimitsKept(settings, month, old(store.records), ledgers)
    ensures AllAnswered(requests, old(store.records), ledgers, responses)
  {
    ghost var records := store.records;
    responses, ledgers := [], [];
    assert records + AllRecords([]) == records;
    for k := 0 to |requests|
      invariant |responses| == |ledgers| == k
      invariant Serving(settings, month, requests, records, ledgers, store.records)
      invariant (forall i :: 0 <= i < k ==> fresh(responses[i]))
      invariant AllAnswered(requests, records, ledgers, responses)
    {
      ghost var before := store.records;
      var response;
      ghost var ledger;
      response, ledger := ServeNext(store, requests, responses, records, ledgers);
      ServingStep(settings, month, requests, records, ledgers, before, ledger);
      responses, ledgers := responses + [response], ledgers + [ledger];
    }
  }
}
