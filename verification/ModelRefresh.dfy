/** A provider's model list and its refresh: concurrent callers share one fetch through an in-flight slot. */
module ModelRefresh {
  import opened Common

  type Models = seq<string>

  datatype Settlement = Pending | Fulfilled(models: Models) | Rejected(error: string)

  /** `fetches` are the promises handed out so far; `calls[k]` is the one that the k-th call returned. */
  datatype State = State(models: Models, inflight: Option<nat>, fetches: seq<Settlement>, calls: seq<nat>)

  /** A call, whose fetch function may throw before it returns a promise; or the outstanding fetch settles. */
  datatype Action = Call(throwsNow: Option<string>) | Settle(outcome: Settlement)

  function Fresh(initial: Models): State {
    State(initial, None, [], [])
  }

  /**
   * A throw inside the call runs the cleanup of the slot before the slot is assigned, so the rejected promise stays in
   * the slot. Only the fetch in the slot can be outstanding.
   */
  function Step(s: State, a: Action): State {
    match a
    case Call(throwsNow) =>
      if s.inflight.Some? then s.(calls := s.calls + [s.inflight.value])
      else
        var id := |s.fetches|;
        s.(inflight := Some(id), calls := s.calls + [id],
           fetches := s.fetches + [if throwsNow.Some? then Rejected(throwsNow.value) else Pending])
    case Settle(outcome) =>
      if !outcome.Pending? && Outstanding(s) then
        s.(models := if outcome.Fulfilled? then outcome.models else s.models,
           inflight := None,
           fetches := s.fetches[s.inflight.value := outcome])
      else s
  }

  predicate Outstanding(s: State) {
    s.inflight.Some? && s.inflight.value < |s.fetches| && s.fetches[s.inflight.value].Pending?
  }

  function Run(initial: Models, actions: seq<Action>): State {
    if actions == [] then Fresh(initial) else Step(Run(initial, actions[..|actions| - 1]), actions[|actions| - 1])
  }

  /** The list after the last successful fetch, else the initial one. */
  function Latest(initial: Models, fetches: seq<Settlement>): Models {
    if fetches == [] then initial
    else
      var f := fetches[|fetches| - 1];
      if f.Fulfilled? then f.models else Latest(initial, fetches[..|fetches| - 1])
  }

  /** A settled promise occupies the slot. */
  predicate Stuck(s: State) {
    s.inflight.Some? && !Outstanding(s)
  }

  ghost predicate Coherent(initial: Models, s: State) {
    // at most one fetch is outstanding, and it is the one in the slot
    && (forall n :: 0 <= n < |s.fetches| && s.fetches[n].Pending? ==> s.inflight == Some(n))
    // the slot holds the newest promise
    && (s.inflight.Some? ==> s.inflight.value + 1 == |s.fetches|)
    // a promise that was fulfilled has left the slot
    && (s.inflight.Some? ==> !s.fetches[s.inflight.value].Fulfilled?)
    // every call holds a promise
    && (forall k :: 0 <= k < |s.calls| ==> s.calls[k] < |s.fetches|)
    // the list is the latest success
    && s.models == Latest(initial, s.fetches)
  }

  lemma {:induction false} LatestAfter(initial: Models, fetches: seq<Settlement>, f: Settlement)
    ensures Latest(initial, fetches + [f]) == if f.Fulfilled? then f.models else Latest(initial, fetches)
  {
    assert (fetches + [f])[..|fetches|] == fetches;
  }

  /** Settling the newest fetch. */
  lemma LatestReplaced(initial: Models, fetches: seq<Settlement>, f: Settlement)
    requires fetches != [] && fetches[|fetches| - 1].Pending?
    ensures Latest(initial, fetches[|fetches| - 1 := f])
         == if f.Fulfilled? then f.models else Latest(initial, fetches)
  {
    var front := fetches[..|fetches| - 1];
    LatestAfter(initial, front, Pending);
    LatestAfter(initial, front, f);
    assert fetches == front + [Pending];
    assert fetches[|fetches| - 1 := f] == front + [f];
  }

  lemma CallCoherent(initial: Models, s: State, throwsNow: Option<string>)
    requires Coherent(initial, s)
    ensures Coherent(initial, Step(s, Call(throwsNow)))
  {
    if s.inflight.None? {
      LatestAfter(initial, s.fetches, if throwsNow.Some? then Rejected(throwsNow.value) else Pending);
    }
  }

  lemma SettleCoherent(initial: Models, s: State, outcome: Settlement)
    requires Coherent(initial, s)
    ensures Coherent(initial, Step(s, Settle(outcome)))
  {
    if !outcome.Pending? && Outstanding(s) {
      LatestReplaced(initial, s.fetches, outcome);
    }
  }

  lemma StepCoherent(initial: Models, s: State, a: Action)
    requires Coherent(initial, s)
    ensures Coherent(initial, Step(s, a))
  {
    match a {
      case Call(throwsNow) => CallCoherent(initial, s, throwsNow);
      case Settle(outcome) => SettleCoherent(initial, s, outcome);
    }
  }

  /**
   * Single flight, over every schedule: at most one fetch is outstanding and it is the one that calls join; the list is
   * the initial one or the latest success, so a rejection leaves it as it was.
   */
  lemma {:induction false} SingleFlight(initial: Models, actions: seq<Action>)
    ensures Coherent(initial, Run(initial, actions))
    decreases |actions|
  {
    if actions != [] {
      SingleFlight(initial, actions[..|actions| - 1]);
      StepCoherent(initial, Run(initial, actions[..|actions| - 1]), actions[|actions| - 1]);
    }
  }

  /** A call joins the outstanding fetch if there is one, and otherwise starts a new one. */
  lemma CallJoinsOrStarts(initial: Models, actions: seq<Action>, a: Action)
    requires a.Call? && !Stuck(Run(initial, actions))
    ensures var s, s' := Run(initial, actions), Run(initial, actions + [a]);
            && |s'.calls| == |s.calls| + 1
            && (if Outstanding(s) then s'.fetches == s.fetches && s.fetches[s'.calls[|s.calls|]].Pending?
                else s'.fetches[..|s.fetches|] == s.fetches && s'.calls[|s.calls|] == |s.fetches| < |s'.fetches|)
  {
    assert (actions + [a])[..|actions|] == actions;
  }

  /** What a call has been promised never changes hands, and once settled never changes. */
  lemma PromisesKept(initial: Models, actions: seq<Action>, a: Action, k: nat)
    requires k < |Run(initial, actions).calls|
    ensures var s, s' := Run(initial, actions), Run(initial, actions + [a]);
            && k < |s'.calls| && s'.calls[k] == s.calls[k] < |s.fetches| <= |s'.fetches|
            && (!s.fetches[s.calls[k]].Pending? ==> s'.fetches[s'.calls[k]] == s.fetches[s.calls[k]])
  {
    SingleFlight(initial, actions);
    assert (actions + [a])[..|actions|] == actions;
  }

  /**
   * When the outstanding fetch settles, every call that joined it has its outcome, the list is what it brought, or
   * what it was before if it was rejected, and the slot is empty; so the next call starts a new fetch.
   */
  lemma SettlingResolves(initial: Models, actions: seq<Action>, outcome: Settlement, next: Option<string>)
    requires Outstanding(Run(initial, actions)) && !outcome.Pending?
    ensures var s, s' := Run(initial, actions), Run(initial, actions + [Settle(outcome)]);
            && (forall k :: 0 <= k < |s.calls| && s.calls[k] == s.inflight.value ==>
                 k < |s'.calls| && s'.calls[k] < |s'.fetches| && s'.fetches[s'.calls[k]] == outcome)
            && s'.models == (match outcome case Fulfilled(models) => models case _ => s.models)
            && s'.inflight == None && s'.calls == s.calls && |s'.fetches| == |s.fetches|
            && var s'' := Run(initial, actions + [Settle(outcome)] + [Call(next)]);
               && |s''.fetches| == |s'.fetches| + 1 && s''.calls == s'.calls + [|s'.fetches|]
               && (next.None? ==> s''.fetches[|s'.fetches|] == Pending && Outstanding(s''))
               && (next.Some? ==> s''.fetches[|s'.fetches|] == Rejected(next.value))
  {
    SingleFlight(initial, actions);
    assert (actions + [Settle(outcome)])[..|actions|] == actions;
    var more := actions + [Settle(outcome)];
    assert (more + [Call(next)])[..|more|] == more;
  }

  /** Some call that had to start a fetch found the fetch function throwing on the spot. */
  predicate ThrewOnTheSpot(initial: Models, actions: seq<Action>) {
    actions != [] && (
      var front, a := actions[..|actions| - 1], actions[|actions| - 1];
      || ThrewOnTheSpot(initial, front)
      || (a.Call? && a.throwsNow.Some? && Run(initial, front).inflight.None?))
  }

  /** The slot gets stuck exactly when the fetch function throws instead of returning a promise; it then stays stuck. */
  lemma {:induction false} StuckIffThrewOnTheSpot(initial: Models, actions: seq<Action>)
    ensures Stuck(Run(initial, actions)) <==> ThrewOnTheSpot(initial, actions)
    decreases |actions|
  {
    if actions != [] {
      var front := actions[..|actions| - 1];
      StuckIffThrewOnTheSpot(initial, front);
      SingleFlight(initial, front);
    }
  }

  /** From then on no call fetches again: every one gets the same rejection and the list never changes. */
  lemma StuckForGood(initial: Models, actions: seq<Action>, a: Action)
    requires ThrewOnTheSpot(initial, actions)
    ensures var s, s' := Run(initial, actions), Run(initial, actions + [a]);
            && s'.models == s.models && s'.inflight == s.inflight && s'.fetches == s.fetches
            && s.inflight.Some? && s.inflight.value < |s.fetches| && s.fetches[s.inflight.value].Rejected?
            && (a.Call? ==> s'.calls == s.calls + [s.inflight.value])
  {
    StuckIffThrewOnTheSpot(initial, actions);
    SingleFlight(initial, actions);
    assert (actions + [a])[..|actions|] == actions;
  }

  /** The provider's closure: its list and its slot. Promises are numbered in the order they are created. */
  class ModelSource {
    var models: Models
    var inflight: Option<nat>
    var created: nat
    ghost var state: State

    ghost predicate Valid()
      reads this
    {
      state.models == models && state.inflight == inflight && |state.fetches| == created
    }

    constructor (initial: Models)
      ensures Valid() && state == Fresh(initial)
    {
      models, inflight, created := initial, None, 0;
      state := Fresh(initial);
    }

    method RefreshModels(throwsNow: Option<string>) returns (promise: nat)
      requires Valid()
      modifies this
      ensures Valid() && state == Step(old(state), Call(throwsNow))
      ensures promise == state.calls[|state.calls| - 1] && models == old(models) && inflight == Some(promise)
      ensures match old(inflight)
              case Some(id) => promise == id && created == old(created)
              case None => promise == old(created) && created == old(created) + 1
    {
      state := Step(state, Call(throwsNow));
      if inflight.None? {
        var id := created;
        created := created + 1;
        if throwsNow.Some? {
          inflight := None;
        }
        inflight := Some(id);
      }
      promise := inflight.value;
    }

    method OnSettled(outcome: Settlement)
      requires Valid() && Outstanding(state) && !outcome.Pending?
      modifies this
      ensures Valid() && state == Step(old(state), Settle(outcome))
      ensures models == match outcome case Fulfilled(list) => list case _ => old(models)
      ensures inflight == None && created == old(created)
    {
      state := Step(state, Settle(outcome));
      if outcome.Fulfilled? {
        models := outcome.models;
      }
      inflight := None;
    }
  }
}
