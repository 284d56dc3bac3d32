/**
 * Budget rules and the usage ledger they are checked against. Money is counted in units of 1e-8 USD, the precision
 * every amount is rounded to; times are milliseconds since the epoch.
 */
module Budget {
  import opened Common
  import opened Text

  datatype Mode = Off | Warn | Block

  datatype Rule = Rule(mode: Option<Mode>, request: Option<int>, daily: Option<int>, monthly: Option<int>)

  datatype Settings = Settings(general: Rule, perProvider: map<string, Rule>)

  datatype Status = Success | Error | Aborted | Skipped

  datatype UsageRecord = UsageRecord(
    timestamp: int,
    provider: string,
    attemptIndex: nat,
    status: Status,
    cost: Option<int>)

  function OrElse<T>(a: Option<T>, b: Option<T>): Option<T> {
    if a.Some? then a else b
  }

  // ----- Providers -----

  /** A blank provider name means no provider: the general rule, and everybody's spending. */
  function NormalizeProvider(provider: string): (r: Option<string>)
    ensures r.Some? ==> r.value != "" && !IsBlank(r.value[0]) && !IsBlank(r.value[|r.value| - 1])
  {
    var trimmed := Trim(provider);
    if trimmed == "" then None else Some(trimmed)
  }

  /** Normalising takes away the white space around a name and nothing else; a blank name is none. */
  lemma NormalizedName(provider: string)
    ensures NormalizeProvider(provider).None? <==> AllBlank(provider)
    ensures NormalizeProvider(provider).Some? ==> Padded(provider, NormalizeProvider(provider).value)
  {
    TrimUnpads(provider);
    PaddedEmpty(provider, Trim(provider));
  }

  // ----- Rules -----

  datatype ActiveRule = ActiveRule(mode: Mode, request: Option<int>, daily: Option<int>, monthly: Option<int>)

  /** A negative amount is no amount. */
  function NormalizeUsd(v: Option<int>): (r: Option<int>)
    ensures r.Some? <==> v.Some? && v.value >= 0
    ensures r.Some? ==> r == v
  {
    if v.Some? && v.value < 0 then None else v
  }

  /** Each field comes from the provider's rule, else from the general one. */
  function ResolveRule(settings: Settings, provider: Option<string>): ActiveRule {
    var general := settings.general;
    var own := if provider.Some? && provider.value in settings.perProvider
               then settings.perProvider[provider.value] else Rule(None, None, None, None);
    var mode := OrElse(own.mode, general.mode);
    ActiveRule(if mode.Some? then mode.value else Off,
               NormalizeUsd(OrElse(own.request, general.request)),
               NormalizeUsd(OrElse(own.daily, general.daily)),
               NormalizeUsd(OrElse(own.monthly, general.monthly)))
  }

  /**
   * A provider's own fields hide the general ones, field by field: the general rule only matters where the own rule is
   * silent, and a negative own limit switches the limit off instead of falling back to the general one.
   */
  lemma OwnRuleHidesGeneral(settings: Settings, general: Rule, name: string)
    requires name in settings.perProvider
    ensures var own := settings.perProvider[name];
            var r, r' := ResolveRule(settings, Some(name)), ResolveRule(settings.(general := general), Some(name));
            && (own.mode.Some? ==> r.mode == r'.mode == own.mode.value)
            && (own.request.Some? ==> r.request == r'.request && (own.request.value < 0 <==> r.request.None?))
            && (own.daily.Some? ==> r.daily == r'.daily && (own.daily.value < 0 <==> r.daily.None?))
            && (own.monthly.Some? ==> r.monthly == r'.monthly && (own.monthly.value < 0 <==> r.monthly.None?))
    ensures settings.perProvider[name] == Rule(None, None, None, None) ==>
      ResolveRule(settings, Some(name)) == ResolveRule(settings, None)
  {
  }

  // ----- Periods -----

  const DAY := 86_400_000

  function StartOfDay(t: int): (r: int)
    ensures r <= t < r + 24 * 60 * 60 * 1000 && r % (24 * 60 * 60 * 1000) == 0
  {
    t - t % DAY
  }

  /** A function that gives the start of the period a moment lies in. */
  ghost predicate IsCalendar(start: int -> int) {
    && (forall t :: start(t) <= t)
    && (forall t, u :: start(u) <= t <= u ==> start(t) == start(u))
  }

  lemma DaysAreACalendar()
    ensures IsCalendar(StartOfDay)
  {
    forall t, u | StartOfDay(u) <= t <= u ensures StartOfDay(t) == StartOfDay(u) {
      var d := u / DAY;
      assert u == d * DAY + u % DAY && t / DAY == d;
    }
  }

  // ----- Sums -----

  /** A record without a cost, or with a negative one, counts nothing. */
  function CostOf(r: UsageRecord): (c: int)
    ensures c >= 0
    ensures r.cost.Some? && r.cost.value >= 0 ==> c == r.cost.value
    ensures r.cost.None? || r.cost.value < 0 ==> c == 0
  {
    var cost := NormalizeUsd(r.cost);
    if cost.Some? then cost.value else 0
  }

  predicate Matches(r: UsageRecord, from: int, to: int, provider: Option<string>) {
    from <= r.timestamp <= to && (provider.Some? ==> r.provider == provider.value)
  }

  function SumUsage(records: seq<UsageRecord>, from: int, to: int, provider: Option<string>): (sum: int)
    ensures sum >= 0
  {
    if records == [] then 0
    else
      var r := records[|records| - 1];
      SumUsage(records[..|records| - 1], from, to, provider) + (if Matches(r, from, to, provider) then CostOf(r) else 0)
  }

  /** A query for nobody in particular counts everybody, else one provider; both ends of the range count. */
  lemma SumGrows(records: seq<UsageRecord>, r: UsageRecord, from: int, to: int, provider: Option<string>)
    ensures SumUsage([], from, to, provider) == 0
    ensures SumUsage(records + [r], from, to, provider)
         == SumUsage(records, from, to, provider)
            + (if from <= r.timestamp && r.timestamp <= to && (provider.None? || provider.value == r.provider)
                  && r.cost.Some? && r.cost.value > 0 then r.cost.value else 0)
  {
    assert (records + [r])[..|records|] == records;
  }

  /** What a provider has spent in the period that starts at `s`. */
  function Spent(records: seq<UsageRecord>, provider: string, start: int -> int, s: int): (sum: int)
    ensures sum >= 0
  {
    if records == [] then 0
    else
      var r := records[|records| - 1];
      Spent(records[..|records| - 1], provider, start, s)
      + (if r.provider == provider && start(r.timestamp) == s then CostOf(r) else 0)
  }

  lemma SpentAppend(records: seq<UsageRecord>, r: UsageRecord, provider: string, start: int -> int, s: int)
    ensures Spent(records + [r], provider, start, s)
         == Spent(records, provider, start, s)
            + (if r.provider == provider && start(r.timestamp) == s then CostOf(r) else 0)
  {
    assert (records + [r])[..|records|] == records;
  }

  /** Nothing in the ledger is later than `t`. */
  ghost predicate NotAfter(records: seq<UsageRecord>, t: int) {
    forall i :: 0 <= i < |records| ==> records[i].timestamp <= t
  }

  /**
   * The budget query sees everything the provider has spent in the current period, provided that nothing in the ledger
   * is in the future and that the query asks for the provider by the name the ledger uses, or for everybody.
   */
  lemma {:induction false} QuerySeesSpending(records: seq<UsageRecord>, provider: string, query: Option<string>,
                                             start: int -> int, now: int)
    requires IsCalendar(start) && NotAfter(records, now) && (query.Some? ==> query.value == provider)
    ensures Spent(records, provider, start, start(now)) <= SumUsage(records, start(now), now, query)
    ensures query.Some? ==> Spent(records, provider, start, start(now)) == SumUsage(records, start(now), now, query)
  {
    if records != [] {
      QuerySeesSpending(records[..|records| - 1], provider, query, start, now);
      var t := records[|records| - 1].timestamp;
      assert start(t) == start(now) <==> start(now) <= t;
    }
  }

  // ----- The decision -----

  datatype Window = Window(used: int, limit: Option<int>, projected: int)
  {
    predicate Exhausted() {
      limit.Some? && projected > limit.value
    }
  }

  datatype Scope = RequestScope | DailyScope | MonthlyScope

  function LimitIn(rule: Rule, scope: Scope): Option<int> {
    match scope
    case RequestScope => rule.request
    case DailyScope => rule.daily
    case MonthlyScope => rule.monthly
  }

  /** The mode is the provider's own, else the general one, else off. */
  ghost predicate ModeInForce(settings: Settings, name: Option<string>, mode: Mode) {
    if name.Some? && name.value in settings.perProvider && settings.perProvider[name.value].mode.Some?
    then settings.perProvider[name.value].mode == Some(mode)
    else if settings.general.mode.Some? then settings.general.mode == Some(mode)
    else mode == Off
  }

  /** The limit is the provider's own, else the general one; a negative one is none. */
  ghost predicate LimitInForce(settings: Settings, name: Option<string>, scope: Scope, limit: int) {
    && limit >= 0
    && if name.Some? && name.value in settings.perProvider && LimitIn(settings.perProvider[name.value], scope).Some?
       then LimitIn(settings.perProvider[name.value], scope) == Some(limit)
       else LimitIn(settings.general, scope) == Some(limit)
  }

  lemma RuleInForce(settings: Settings, name: Option<string>)
    ensures var r := ResolveRule(settings, name);
            && (forall mode :: ModeInForce(settings, name, mode) <==> mode == r.mode)
            && (forall limit :: LimitInForce(settings, name, RequestScope, limit) <==> r.request == Some(limit))
            && (forall limit :: LimitInForce(settings, name, DailyScope, limit) <==> r.daily == Some(limit))
            && (forall limit :: LimitInForce(settings, name, MonthlyScope, limit) <==> r.monthly == Some(limit))
  {
  }

  /** What would have been spent in a scope after a request: a request limit only looks at the estimate. */
  ghost predicate Projects(month: int -> int, records: seq<UsageRecord>, name: Option<string>, estimate: Option<int>,
                           now: int, scope: Scope, projected: int)
  {
    var e := if estimate.Some? && estimate.value >= 0 then estimate.value else 0;
    match scope
    case RequestScope => estimate == Some(projected) && projected >= 0
    case DailyScope => projected == SumUsage(records, StartOfDay(now), now, name) + e
    case MonthlyScope => projected == SumUsage(records, month(now), now, name) + e
  }

  /** Some limit in force would be exceeded in this scope. */
  ghost predicate Exceeds(settings: Settings, month: int -> int, records: seq<UsageRecord>, provider: string,
                          estimate: Option<int>, now: int, scope: Scope)
  {
    var name := NormalizeProvider(provider);
    exists limit, projected ::
      && LimitInForce(settings, name, scope, limit)
      && Projects(month, records, name, estimate, now, scope, projected) && projected > limit
  }

  ghost predicate OverLimit(settings: Settings, month: int -> int, records: seq<UsageRecord>, provider: string,
                            estimate: Option<int>, now: int)
  {
    exists scope :: Exceeds(settings, month, records, provider, estimate, now, scope)
  }

  datatype Violation = Violation(scope: Scope, limit: int, used: int, estimated: int, projected: int)

  datatype BudgetStatus = BudgetStatus(
    mode: Mode,
    estimate: Option<int>,
    daily: Window,
    monthly: Window,
    violations: seq<Violation>)
  {
    predicate ShouldBlock() {
      mode == Block && violations != []
    }
  }

  function Amount(v: Option<int>): int {
    if v.Some? then v.value else 0
  }

  function RequestViolations(requestLimit: Option<int>, estimate: Option<int>): seq<Violation> {
    if requestLimit.Some? && estimate.Some? && estimate.value > requestLimit.value
    then [Violation(RequestScope, requestLimit.value, 0, estimate.value, estimate.value)] else []
  }

  function WindowViolations(scope: Scope, w: Window, estimate: Option<int>): seq<Violation> {
    if w.limit.Some? && w.projected > w.limit.value
    then [Violation(scope, w.limit.value, w.used, Amount(estimate), w.projected)] else []
  }

  /** One violation per exceeded limit, in the order request, day, month. */
  method CollectViolations(requestLimit: Option<int>, estimate: Option<int>, daily: Window, monthly: Window)
    returns (violations: seq<Violation>)
    ensures violations
         == RequestViolations(requestLimit, estimate)
            + WindowViolations(DailyScope, daily, estimate) + WindowViolations(MonthlyScope, monthly, estimate)
  {
    violations := [];
    if requestLimit.Some? && estimate.Some? && estimate.value > requestLimit.value {
      violations := [Violation(RequestScope, requestLimit.value, 0, estimate.value, estimate.value)];
    }
    var windows := [(DailyScope, daily), (MonthlyScope, monthly)];
    ghost var first := violations;
    for i := 0 to |windows|
      invariant violations
        == first
           + (if i >= 1 then WindowViolations(DailyScope, daily, estimate) else [])
           + (if i == 2 then WindowViolations(MonthlyScope, monthly, estimate) else [])
    {
      var (scope, window) := windows[i];
      if window.limit.Some? && window.Exhausted() {
        violations :=
          violations + [Violation(scope, window.limit.value, window.used, Amount(estimate), window.projected)];
      }
    }
  }

  /** The budget admits an attempt: its estimate fits every limit on top of what the ledger shows. */
  ghost predicate Admits(settings: Settings, month: int -> int, records: seq<UsageRecord>, provider: string,
                         estimate: Option<int>, now: int)
  {
    var name := NormalizeProvider(provider);
    var rule := ResolveRule(settings, name);
    var e := NormalizeUsd(estimate);
    && (rule.request.Some? && e.Some? ==> e.value <= rule.request.value)
    && (rule.daily.Some? ==> SumUsage(records, StartOfDay(now), now, name) + Amount(e) <= rule.daily.value)
    && (rule.monthly.Some? ==> SumUsage(records, month(now), now, name) + Amount(e) <= rule.monthly.value)
  }

  lemma ExceedsIs(settings: Settings, month: int -> int, records: seq<UsageRecord>, provider: string,
                  estimate: Option<int>, now: int)
    ensures var name, e := NormalizeProvider(provider), NormalizeUsd(estimate);
            var r := ResolveRule(settings, name);
            && (Exceeds(settings, month, records, provider, estimate, now, RequestScope)
                <==> r.request.Some? && e.Some? && e.value > r.request.value)
            && (Exceeds(settings, month, records, provider, estimate, now, DailyScope)
                <==> r.daily.Some? && SumUsage(records, StartOfDay(now), now, name) + Amount(e) > r.daily.value)
            && (Exceeds(settings, month, records, provider, estimate, now, MonthlyScope)
                <==> r.monthly.Some? && SumUsage(records, month(now), now, name) + Amount(e) > r.monthly.value)
  {
    var name, e := NormalizeProvider(provider), NormalizeUsd(estimate);
    var r := ResolveRule(settings, name);
    RuleInForce(settings, name);
    if r.request.Some? && e.Some? {
      assert Projects(month, records, name, estimate, now, RequestScope, e.value);
    }
    var daily := SumUsage(records, StartOfDay(now), now, name) + Amount(e);
    assert Projects(month, records, name, estimate, now, DailyScope, daily);
    var monthly := SumUsage(records, month(now), now, name) + Amount(e);
    assert Projects(month, records, name, estimate, now, MonthlyScope, monthly);
  }

  lemma AdmitsUnlessOver(settings: Settings, month: int -> int, records: seq<UsageRecord>, provider: string,
                         estimate: Option<int>, now: int)
    ensures Admits(settings, month, records, provider, estimate, now)
       <==> !OverLimit(settings, month, records, provider, estimate, now)
  {
    ExceedsIs(settings, month, records, provider, estimate, now);
  }

  /** Each violation names a limit in force that would be exceeded, and by what. */
  ghost predicate Tells(v: Violation, settings: Settings, month: int -> int, records: seq<UsageRecord>,
                        provider: string, estimate: Option<int>, now: int)
  {
    var name := NormalizeProvider(provider);
    && LimitInForce(settings, name, v.scope, v.limit) && v.projected > v.limit
    && Projects(month, records, name, estimate, now, v.scope, v.projected)
    && v.projected == v.used + v.estimated
  }

  lemma ViolationsTell(settings: Settings, month: int -> int, records: seq<UsageRecord>, provider: string,
                       estimate: Option<int>, now: int, scope: Scope, vs: seq<Violation>)
    requires var name, e := NormalizeProvider(provider), NormalizeUsd(estimate);
             var r := ResolveRule(settings, name);
             vs == match scope
                   case RequestScope => RequestViolations(r.request, e)
                   case DailyScope =>
                     var used := SumUsage(records, StartOfDay(now), now, name);
                     WindowViolations(DailyScope, Window(used, r.daily, used + Amount(e)), e)
                   case MonthlyScope =>
                     var used := SumUsage(records, month(now), now, name);
                     WindowViolations(MonthlyScope, Window(used, r.monthly, used + Amount(e)), e)
    ensures forall v :: v in vs ==> v.scope == scope && Tells(v, settings, month, records, provider, estimate, now)
    ensures vs != [] <==> Exceeds(settings, month, records, provider, estimate, now, scope)
  {
    RuleInForce(settings, NormalizeProvider(provider));
    ExceedsIs(settings, month, records, provider, estimate, now);
  }

  /** The violations are those of the three scopes: there is one exactly where a limit in force would be exceeded. */
  ghost predicate AllTell(vs: seq<Violation>, settings: Settings, month: int -> int, records: seq<UsageRecord>,
                          provider: string, estimate: Option<int>, now: int)
  {
    && (forall v :: v in vs ==> Tells(v, settings, month, records, provider, estimate, now))
    && forall scope ::
         (exists v :: v in vs && v.scope == scope)
         <==> Exceeds(settings, month, records, provider, estimate, now, scope)
  }

  lemma ScopesTell(vs: seq<Violation>, request: seq<Violation>, daily: seq<Violation>, monthly: seq<Violation>,
                   settings: Settings, month: int -> int, records: seq<UsageRecord>, provider: string,
                   estimate: Option<int>, now: int)
    requires vs == request + daily + monthly
    requires forall v :: v in request ==>
      v.scope == RequestScope && Tells(v, settings, month, records, provider, estimate, now)
    requires forall v :: v in daily ==>
      v.scope == DailyScope && Tells(v, settings, month, records, provider, estimate, now)
    requires forall v :: v in monthly ==>
      v.scope == MonthlyScope && Tells(v, settings, month, records, provider, estimate, now)
    requires request != [] <==> Exceeds(settings, month, records, provider, estimate, now, RequestScope)
    requires daily != [] <==> Exceeds(settings, month, records, provider, estimate, now, DailyScope)
    requires monthly != [] <==> Exceeds(settings, month, records, provider, estimate, now, MonthlyScope)
    ensures AllTell(vs, settings, month, records, provider, estimate, now)
    ensures vs == [] <==> !OverLimit(settings, month, records, provider, estimate, now)
  {
    forall scope ensures (exists v :: v in vs && v.scope == scope)
                    <==> Exceeds(settings, month, records, provider, estimate, now, scope)
    {
      match scope {
        case RequestScope => if request != [] { assert request[0] in vs; }
        case DailyScope => if daily != [] { assert daily[0] in vs; }
        case MonthlyScope => if monthly != [] { assert monthly[0] in vs; }
      }
    }
  }

  /** The violations of the rule in force, given the sums of the day and of the month. */
  lemma ViolationsOfRuleTell(settings: Settings, month: int -> int, records: seq<UsageRecord>, provider: string,
                             estimate: Option<int>, now: int, vs: seq<Violation>)
    requires var name, e := NormalizeProvider(provider), NormalizeUsd(estimate);
             var rule := ResolveRule(settings, name);
             var d, m := SumUsage(records, StartOfDay(now), now, name), SumUsage(records, month(now), now, name);
             vs == RequestViolations(rule.request, e)
                   + WindowViolations(DailyScope, Window(d, rule.daily, d + Amount(e)), e)
                   + WindowViolations(MonthlyScope, Window(m, rule.monthly, m + Amount(e)), e)
    ensures AllTell(vs, settings, month, records, provider, estimate, now)
    ensures vs == [] <==> !OverLimit(settings, month, records, provider, estimate, now)
  {
    var name, e := NormalizeProvider(provider), NormalizeUsd(estimate);
    var rule := ResolveRule(settings, name);
    var d, m := SumUsage(records, StartOfDay(now), now, name), SumUsage(records, month(now), now, name);
    var vr := RequestViolations(rule.request, e);
    var vd := WindowViolations(DailyScope, Window(d, rule.daily, d + Amount(e)), e);
    var vm := WindowViolations(MonthlyScope, Window(m, rule.monthly, m + Amount(e)), e);
    ViolationsTell(settings, month, records, provider, estimate, now, RequestScope, vr);
    ViolationsTell(settings, month, records, provider, estimate, now, DailyScope, vd);
    ViolationsTell(settings, month, records, provider, estimate, now, MonthlyScope, vm);
    ScopesTell(vs, vr, vd, vm, settings, month, records, provider, estimate, now);
  }

  method EvaluateBudget(settings: Settings, month: int -> int, records: seq<UsageRecord>, provider: string,
                        estimate: Option<int>, now: int)
    returns (status: BudgetStatus)
    ensures ModeInForce(settings, NormalizeProvider(provider), status.mode)
    ensures status.violations == [] <==> !OverLimit(settings, month, records, provider, estimate, now)
    ensures status.ShouldBlock() <==>
      && ModeInForce(settings, NormalizeProvider(provider), Block)
      && OverLimit(settings, month, records, provider, estimate, now)
    ensures AllTell(status.violations, settings, month, records, provider, estimate, now)
    ensures var name := NormalizeProvider(provider);
            && Projects(month, records, name, estimate, now, DailyScope, status.daily.projected)
            && Projects(month, records, name, estimate, now, MonthlyScope, status.monthly.projected)
            && status.daily.used == SumUsage(records, StartOfDay(now), now, name)
            && status.monthly.used == SumUsage(records, month(now), now, name)
  {
    var name := NormalizeProvider(provider);
    var rule := ResolveRule(settings, name);
    var e := NormalizeUsd(estimate);
    var dailyUsed := SumUsage(records, StartOfDay(now), now, name);
    var monthlyUsed := SumUsage(records, month(now), now, name);
    var daily := Window(dailyUsed, rule.daily, dailyUsed + Amount(e));
    var monthly := Window(monthlyUsed, rule.monthly, monthlyUsed + Amount(e));
    var violations := CollectViolations(rule.request, e, daily, monthly);
    ViolationsOfRuleTell(settings, month, records, provider, estimate, now, violations);
    RuleInForce(settings, name);
    status := BudgetStatus(rule.mode, e, daily, monthly, violations);
  }

  // ----- Spending safety -----

  /** The budget looks a provider up under the name its records carry, or it looks at everybody's records. */
  predicate Queryable(provider: string) {
    var name := NormalizeProvider(provider);
    name.None? || name.value == provider
  }

  ghost predicate Within(records: seq<UsageRecord>, provider: string, start: int -> int, limit: Option<int>) {
    limit.Some? ==> forall s :: Spent(records, provider, start, s) <= limit.value
  }

  /** No provider under a blocking rule has spent more than its limit in any day or any month. */
  ghost predicate WithinLimits(settings: Settings, month: int -> int, records: seq<UsageRecord>) {
    forall p {:trigger Queryable(p)} :: Queryable(p) ==>
      var rule := ResolveRule(settings, NormalizeProvider(p));
      rule.mode == Block ==>
        Within(records, p, StartOfDay, rule.daily) && Within(records, p, month, rule.monthly)
  }

  lemma FreeRecord(records: seq<UsageRecord>, r: UsageRecord, p: string, start: int -> int, limit: Option<int>)
    requires Within(records, p, start, limit) && (CostOf(r) == 0 || r.provider != p)
    ensures Within(records + [r], p, start, limit)
  {
    if limit.Some? {
      forall s ensures Spent(records + [r], p, start, s) <= limit.value {
        SpentAppend(records, r, p, start, s);
      }
    }
  }

  lemma PaidRecord(records: seq<UsageRecord>, r: UsageRecord, p: string, query: Option<string>, start: int -> int,
                   limit: Option<int>, now: int)
    requires IsCalendar(start) && NotAfter(records, now) && (query.Some? ==> query.value == p)
    requires Within(records, p, start, limit) && r.provider == p && start(r.timestamp) == start(now)
    requires limit.Some? ==> SumUsage(records, start(now), now, query) + CostOf(r) <= limit.value
    ensures Within(records + [r], p, start, limit)
  {
    if limit.Some? {
      QuerySeesSpending(records, p, query, start, now);
      forall s ensures Spent(records + [r], p, start, s) <= limit.value {
        SpentAppend(records, r, p, start, s);
      }
    }
  }

  /** A record without cost never breaks a limit. */
  lemma FreeRecordsAreSafe(settings: Settings, month: int -> int, records: seq<UsageRecord>, r: UsageRecord)
    requires WithinLimits(settings, month, records) && CostOf(r) == 0
    ensures WithinLimits(settings, month, records + [r])
  {
    forall p | Queryable(p)
      ensures var rule := ResolveRule(settings, NormalizeProvider(p));
              rule.mode == Block ==>
                Within(records + [r], p, StartOfDay, rule.daily) && Within(records + [r], p, month, rule.monthly)
    {
      var rule := ResolveRule(settings, NormalizeProvider(p));
      if rule.mode == Block {
        FreeRecord(records, r, p, StartOfDay, rule.daily);
        FreeRecord(records, r, p, month, rule.monthly);
      }
    }
  }

  /**
   * One admitted attempt keeps every limit: its record costs no more than the estimate that was admitted, is stamped in
   * the day and month of the budget reading, and the ledger had nothing later than that reading.
   */
  lemma AdmittedRecordIsSafe(settings: Settings, month: int -> int, records: seq<UsageRecord>, r: UsageRecord,
                             estimate: Option<int>, now: int)
    requires IsCalendar(month) && WithinLimits(settings, month, records) && NotAfter(records, now)
    requires ResolveRule(settings, NormalizeProvider(r.provider)).mode == Block ==>
      Admits(settings, month, records, r.provider, estimate, now)
    requires CostOf(r) <= Amount(NormalizeUsd(estimate))
    requires StartOfDay(r.timestamp) == StartOfDay(now) && month(r.timestamp) == month(now)
    ensures WithinLimits(settings, month, records + [r])
  {
    DaysAreACalendar();
    forall p | Queryable(p)
      ensures var rule := ResolveRule(settings, NormalizeProvider(p));
              rule.mode == Block ==>
                Within(records + [r], p, StartOfDay, rule.daily) && Within(records + [r], p, month, rule.monthly)
    {
      var name := NormalizeProvider(p);
      var rule := ResolveRule(settings, name);
      if rule.mode == Block {
        if r.provider == p {
          PaidRecord(records, r, p, name, StartOfDay, rule.daily, now);
          PaidRecord(records, r, p, name, month, rule.monthly, now);
        } else {
          FreeRecord(records, r, p, StartOfDay, rule.daily);
          FreeRecord(records, r, p, month, rule.monthly);
        }
      }
    }
  }

  /**
   * The gate protects a provider's limit for one kind of period: whatever the ledger, an attempt that the query admits
   * and that is stamped `stamp` leaves the limit intact. `now` is the clock reading of the budget check.
   */
  ghost predicate GateProtects(provider: string, start: int -> int, stamp: int, now: int) {
    forall records: seq<UsageRecord>, limit: int, cost: int ::
      && NotAfter(records, now) && cost >= 0 && Within(records, provider, start, Some(limit))
      && SumUsage(records, start(now), now, NormalizeProvider(provider)) + cost <= limit
      ==> Within(records + [UsageRecord(stamp, provider, 0, Success, Some(cost))], provider, start, Some(limit))
  }

  /**
   * The exact condition: the record is stamped in the period the budget was read in, and the provider's name carries no
   * surrounding white space. An attempt that straddles midnight is charged to a day whose limit was not consulted, and
   * a padded name is looked up under another name than its records carry.
   */
  lemma GateProtectsIff(provider: string, start: int -> int, stamp: int, now: int)
    requires IsCalendar(start) && stamp <= now
    ensures GateProtects(provider, start, stamp, now) <==> Queryable(provider) && start(stamp) == start(now)
  {
    var name := NormalizeProvider(provider);
    if Queryable(provider) && start(stamp) == start(now) {
      forall records: seq<UsageRecord>, limit: int, cost: int |
        && NotAfter(records, now) && cost >= 0 && Within(records, provider, start, Some(limit))
        && SumUsage(records, start(now), now, name) + cost <= limit
        ensures Within(records + [UsageRecord(stamp, provider, 0, Success, Some(cost))], provider, start, Some(limit))
      {
        var r := UsageRecord(stamp, provider, 0, Success, Some(cost));
        PaidRecord(records, r, provider, name, start, Some(limit), now);
      }
    } else {
      OverspendUnseen(provider, start, stamp, now);
    }
  }

  /** One record is within a limit of its own cost; two of them are not. */
  lemma OnceButNotTwice(r: UsageRecord, start: int -> int)
    requires CostOf(r) > 0
    ensures Within([r], r.provider, start, Some(CostOf(r)))
    ensures !Within([r] + [r], r.provider, start, Some(CostOf(r)))
  {
    forall s ensures Spent([r], r.provider, start, s) == if start(r.timestamp) == s then CostOf(r) else 0 {
      SpentAppend([], r, r.provider, start, s);
      assert [] + [r] == [r];
    }
    SpentAppend([r], r, r.provider, start, start(r.timestamp));
    assert Spent([r] + [r], r.provider, start, start(r.timestamp)) > CostOf(r);
  }

  lemma OverspendUnseen(provider: string, start: int -> int, stamp: int, now: int)
    requires IsCalendar(start) && stamp <= now && !(Queryable(provider) && start(stamp) == start(now))
    ensures !GateProtects(provider, start, stamp, now)
  {
    var r := UsageRecord(stamp, provider, 0, Success, Some(10));
    OnceButNotTwice(r, start);
    assert [r][..0] == [] && !Matches(r, start(now), now, NormalizeProvider(provider));
    assert SumUsage([r], start(now), now, NormalizeProvider(provider)) + 10 <= 10;
    assert NotAfter([r], now);
  }
}
