/**
 * Generating along the fallback chain under an agent's daily budget.
 */
module Generation {
  import opened Wrappers
  import opened Registry
  import opened StableSort

  datatype Attempt = Fails | Succeeds(cost: real)

  datatype Outcome =
    | Done(index: nat, cost: real)
    | BudgetExceeded(index: nat)
    | BackendUnavailable

  /** One line of the cost log. */
  datatype Cost = Cost(agent: Option<nat>, amount: real, day: nat)

  function SpentOn(log: seq<Cost>, agent: nat, day: nat): real {
    if |log| == 0 then 0.0
    else
      var last := log[|log| - 1];
      SpentOn(log[..|log| - 1], agent, day) + if last.agent == Some(agent) && last.day == day then last.amount else 0.0
  }

  /** No agent, or a budget that is not positive, means no limit. */
  predicate CanSpend(log: seq<Cost>, budgets: map<nat, real>, agent: Option<nat>, day: nat, amount: real) {
    agent.None? || agent.value !in budgets || budgets[agent.value] <= 0.0
    || SpentOn(log, agent.value, day) + amount <= budgets[agent.value]
  }

  // ---------- The loop ----------

  /** The program's loop from position i on. */
  function Tried(chain: seq<Backend>, affordable: Backend -> bool, attempt: Backend -> Attempt, i: nat): Outcome
    requires i <= |chain|
    decreases |chain| - i
  {
    if i == |chain| then BackendUnavailable
    else if !affordable(chain[i]) then BudgetExceeded(i)
    else
      match attempt(chain[i])
      case Succeeds(cost) => Done(i, cost)
      case Fails => Tried(chain, affordable, attempt, i + 1)
  }

  ghost predicate FailsBefore(chain: seq<Backend>, affordable: Backend -> bool, attempt: Backend -> Attempt,
                              from: nat, i: nat) {
    forall j :: from <= j < i && j < |chain| ==> affordable(chain[j]) && attempt(chain[j]).Fails?
  }

  /** Which of the three ways the call ends, and where. */
  lemma {:induction false} TriedIff(chain: seq<Backend>, affordable: Backend -> bool, attempt: Backend -> Attempt,
                                    from: nat, i: nat, cost: real)
    requires from <= |chain|
    ensures Tried(chain, affordable, attempt, from) == Done(i, cost) <==>
            && from <= i < |chain| && FailsBefore(chain, affordable, attempt, from, i)
            && affordable(chain[i]) && attempt(chain[i]) == Succeeds(cost)
    ensures Tried(chain, affordable, attempt, from) == BudgetExceeded(i) <==>
            && from <= i < |chain| && FailsBefore(chain, affordable, attempt, from, i) && !affordable(chain[i])
    ensures Tried(chain, affordable, attempt, from) == BackendUnavailable <==>
            FailsBefore(chain, affordable, attempt, from, |chain|)
    decreases |chain| - from
  {
    if from < |chain| {
      TriedIff(chain, affordable, attempt, from + 1, i, cost);
      var here := affordable(chain[from]) && attempt(chain[from]).Fails?;
      assert from < i ==> (FailsBefore(chain, affordable, attempt, from, i)
                           <==> here && FailsBefore(chain, affordable, attempt, from + 1, i));
      assert FailsBefore(chain, affordable, attempt, from, |chain|)
          <==> here && FailsBefore(chain, affordable, attempt, from + 1, |chain|);
    }
  }

  /** The first backend that is affordable and succeeds. */
  ghost predicate FirstAffordable(chain: seq<Backend>, affordable: Backend -> bool, attempt: Backend -> Attempt,
                                  i: nat) {
    && i < |chain| && affordable(chain[i]) && attempt(chain[i]).Succeeds?
    && forall j :: 0 <= j < i ==> !(affordable(chain[j]) && attempt(chain[j]).Succeeds?)
  }

  /**
   * The call ends with the first affordable backend that succeeds exactly when no backend in front
   * of it is too expensive: the first one that is stops the chain, whatever stands behind it.
   */
  lemma ResultIsFirstAffordableIff(chain: seq<Backend>, affordable: Backend -> bool, attempt: Backend -> Attempt,
                                   i: nat)
    requires FirstAffordable(chain, affordable, attempt, i)
    ensures Tried(chain, affordable, attempt, 0) == Done(i, attempt(chain[i]).cost) <==>
            forall j :: 0 <= j < i ==> affordable(chain[j])
  {
    TriedIff(chain, affordable, attempt, 0, i, attempt(chain[i]).cost);
  }

  // ---------- Along the registry ----------

  /** Every usable entry before n is affordable and fails. */
  ghost predicate AllFailBefore(list: seq<Entry>, usable: Backend -> bool, affordable: Backend -> bool,
                                attempt: Backend -> Attempt, n: nat) {
    forall m :: 0 <= m < n && m < |list| && usable(list[m].backend) ==>
      affordable(list[m].backend) && attempt(list[m].backend).Fails?
  }

  /** Entry n of the list is usable and affordable and succeeds, and the loop gets to it. */
  ghost predicate UsedAt(list: seq<Entry>, usable: Backend -> bool, affordable: Backend -> bool,
                         attempt: Backend -> Attempt, n: nat, cost: real) {
    && n < |list| && usable(list[n].backend) && affordable(list[n].backend)
    && attempt(list[n].backend) == Succeeds(cost) && AllFailBefore(list, usable, affordable, attempt, n)
  }

  lemma UsedIsDone(list: seq<Entry>, usable: Backend -> bool, affordable: Backend -> bool,
                   attempt: Backend -> Attempt, n: nat, cost: real) returns (i: nat)
    requires UsedAt(list, usable, affordable, attempt, n, cost)
    ensures Tried(Chain(list, usable), affordable, attempt, 0) == Done(i, cost)
    ensures i < |Chain(list, usable)| && Chain(list, usable)[i] == list[n].backend
  {
    var chain := Chain(list, usable);
    var positions := ChainPositions(list, usable);
    assert n in positions;
    i :| 0 <= i < |positions| && positions[i] == n;
    forall j | 0 <= j < i ensures affordable(chain[j]) && attempt(chain[j]).Fails? {
      var m := positions[j];
      assert m in positions && m < n && list[m].backend == chain[j];
    }
    TriedIff(chain, affordable, attempt, 0, i, cost);
  }

  lemma DoneIsUsed(list: seq<Entry>, usable: Backend -> bool, affordable: Backend -> bool,
                   attempt: Backend -> Attempt, i: nat, cost: real) returns (n: nat)
    requires Tried(Chain(list, usable), affordable, attempt, 0) == Done(i, cost)
    ensures UsedAt(list, usable, affordable, attempt, n, cost)
    ensures i < |Chain(list, usable)| && Chain(list, usable)[i] == list[n].backend
  {
    var chain := Chain(list, usable);
    TriedIff(chain, affordable, attempt, 0, i, cost);
    var positions := ChainPositions(list, usable);
    n := positions[i];
    assert n in positions;
    forall m: nat | m < n && usable(list[m].backend)
      ensures affordable(list[m].backend) && attempt(list[m].backend).Fails?
    {
      assert m in positions;
      var j :| 0 <= j < |positions| && positions[j] == m;
      RisingOrder(positions, j, i);
      assert chain[j] == list[m].backend;
    }
  }

  /**
   * After any registrations: the list is ordered by priority and then by registration, and a call
   * ends with a result exactly when some entry of it is usable, affordable and succeeding while
   * every usable one before it is affordable and fails.
   */
  lemma ResultInRegistrationOrder(entries: seq<Entry>, usable: Backend -> bool, affordable: Backend -> bool,
                                  attempt: Backend -> Attempt, cost: real, p: real)
    ensures var list := Registered(entries);
            && Ascending(list, Priority)
            && WithKey(list, Priority, p) == WithKey(entries, Priority, p)
            && ((exists i :: Tried(Chain(list, usable), affordable, attempt, 0) == Done(i, cost))
                <==> exists n :: UsedAt(list, usable, affordable, attempt, n, cost))
  {
    var list := Registered(entries);
    PriorityThenRegistration(entries, p);
    if i :| Tried(Chain(list, usable), affordable, attempt, 0) == Done(i, cost) {
      var n := DoneIsUsed(list, usable, affordable, attempt, i, cost);
    }
    if n :| UsedAt(list, usable, affordable, attempt, n, cost) {
      var i := UsedIsDone(list, usable, affordable, attempt, n, cost);
    }
  }

  /** The first entry, in registry order, that is usable, affordable and succeeding. */
  ghost predicate FirstWorking(list: seq<Entry>, usable: Backend -> bool, affordable: Backend -> bool,
                               attempt: Backend -> Attempt, n: nat) {
    && n < |list| && usable(list[n].backend) && affordable(list[n].backend) && attempt(list[n].backend).Succeeds?
    && forall m :: 0 <= m < n ==>
         !(usable(list[m].backend) && affordable(list[m].backend) && attempt(list[m].backend).Succeeds?)
  }

  /** That entry is the one used exactly when no usable one before it is too expensive; otherwise there is no result. */
  lemma FirstWorkingIsUsedIff(list: seq<Entry>, usable: Backend -> bool, affordable: Backend -> bool,
                              attempt: Backend -> Attempt, n: nat)
    requires FirstWorking(list, usable, affordable, attempt, n)
    ensures var chain := Chain(list, usable);
            var outcome := Tried(chain, affordable, attempt, 0);
            && (outcome.Done? <==> forall m :: 0 <= m < n && usable(list[m].backend) ==> affordable(list[m].backend))
            && (outcome.Done? ==> outcome.index < |chain| && chain[outcome.index] == list[n].backend
                                  && outcome.cost == attempt(list[n].backend).cost)
  {
    var outcome := Tried(Chain(list, usable), affordable, attempt, 0);
    if outcome.Done? {
      var m := DoneIsUsed(list, usable, affordable, attempt, outcome.index, outcome.cost);
      UsedIsFirst(list, usable, affordable, attempt, n, m, outcome.cost);
    }
    if forall m :: 0 <= m < n && usable(list[m].backend) ==> affordable(list[m].backend) {
      var i := UsedIsDone(list, usable, affordable, attempt, n, attempt(list[n].backend).cost);
    }
  }

  lemma UsedIsFirst(list: seq<Entry>, usable: Backend -> bool, affordable: Backend -> bool,
                    attempt: Backend -> Attempt, n: nat, m: nat, cost: real)
    requires FirstWorking(list, usable, affordable, attempt, n) && UsedAt(list, usable, affordable, attempt, m, cost)
    ensures m == n && forall k :: 0 <= k < n && usable(list[k].backend) ==> affordable(list[k].backend)
  {
  }

  // ---------- The service ----------

  /** What is asked for, by whom, and how each backend would do. */
  datatype Request = Request(agent: Option<nat>, capability: Capability, maxCost: Option<real>, cacheHit: bool,
                             attempt: Backend -> Attempt)

  /** A moment: the clock, how long health answers stay fresh, and what each backend would answer. */
  datatype Moment = Moment(now: int, ttl: int, probe: nat -> bool)

  /** The call a request makes, given the registry's list and its health answers so far. */
  function CallOf(request: Request, list: seq<Entry>, health: map<nat, HealthCheck>, at: Moment): Call {
    var chain := Chain(list, UsableNow(health, at.now, at.ttl, at.probe, request.maxCost));
    Call(request.agent, request.cacheHit, if |chain| == 0 then None else Some(chain), request.attempt)
  }

  /** A call: who asks, what the registry answered, how each backend would do. */
  datatype Call = Call(agent: Option<nat>, cacheHit: bool, chain: Option<seq<Backend>>, attempt: Backend -> Attempt)

  datatype Books = Books(log: seq<Cost>, budgets: map<nat, real>, paused: set<nat>, day: nat)

  function Affordable(b: Books, agent: Option<nat>): Backend -> bool {
    (x: Backend) => CanSpend(b.log, b.budgets, agent, b.day, x.unitCost)
  }

  /** The result of a call: a cache hit costs nothing, an empty chain is no backend. */
  function ResultOf(b: Books, call: Call): Outcome {
    if call.cacheHit then Done(0, 0.0)
    else if call.chain.None? then BackendUnavailable
    else Tried(call.chain.value, Affordable(b, call.agent), call.attempt, 0)
  }

  function Settled(b: Books, call: Call): Books {
    if call.cacheHit then b
    else
      match ResultOf(b, call)
      case Done(_, cost) => b.(log := b.log + [Cost(call.agent, cost, b.day)])
      case BudgetExceeded(_) => if call.agent.Some? then b.(paused := b.paused + {call.agent.value}) else b
      case BackendUnavailable => b
  }

  /** The case exists: the dear backend comes first and pauses the agent, the cheap one would have done. */
  lemma CheapBackendIsNotReached()
    ensures var dear, cheap := Backend(0, ImageGeneration, 10.0), Backend(1, ImageGeneration, 1.0);
            var call := Call(Some(7), false, Some([dear, cheap]), (b: Backend) => Succeeds(b.unitCost));
            var books := Books([], map[7 := 5.0], {}, 0);
            && FirstAffordable([dear, cheap], Affordable(books, Some(7)), call.attempt, 1)
            && ResultOf(books, call) == BudgetExceeded(0) && Settled(books, call).paused == {7}
  {
  }

  /** A request over these registrations is served by entry n of their list, at this cost. */
  ghost predicate ServedBy(b: Books, request: Request, entries: seq<Entry>, health: map<nat, HealthCheck>,
                           at: Moment, n: nat, cost: real) {
    UsedAt(Registered(entries), UsableNow(health, at.now, at.ttl, at.probe, request.maxCost),
           Affordable(b, request.agent), request.attempt, n, cost)
  }

  /** Some entry serves it at this cost. */
  ghost predicate Served(b: Books, request: Request, entries: seq<Entry>, health: map<nat, HealthCheck>, at: Moment,
                         cost: real) {
    exists n :: ServedBy(b, request, entries, health, at, n, cost)
  }

  /**
   * A request that is no cache hit, over a registry with these registrations, ends with a result
   * exactly when some entry of the list is used.
   */
  lemma RequestUsesRegistry(b: Books, request: Request, entries: seq<Entry>, health: map<nat, HealthCheck>,
                            at: Moment, cost: real)
    requires !request.cacheHit
    ensures var list, usable := Registered(entries), UsableNow(health, at.now, at.ttl, at.probe, request.maxCost);
            (exists i :: ResultOf(b, CallOf(request, list, health, at)) == Done(i, cost))
            <==> Served(b, request, entries, health, at, cost)
  {
    var list, usable := Registered(entries), UsableNow(health, at.now, at.ttl, at.probe, request.maxCost);
    ResultInRegistrationOrder(entries, usable, Affordable(b, request.agent), request.attempt, cost, 0.0);
    assert ResultOf(b, CallOf(request, list, health, at))
        == Tried(Chain(list, usable), Affordable(b, request.agent), request.attempt, 0);
    forall n: nat
      ensures ServedBy(b, request, entries, health, at, n, cost)
         <==> UsedAt(list, usable, Affordable(b, request.agent), request.attempt, n, cost)
    {
    }
  }

  lemma ServedIff(b: Books, request: Request, entries: seq<Entry>, health: map<nat, HealthCheck>, at: Moment)
    requires !request.cacheHit
    ensures var outcome := ResultOf(b, CallOf(request, Registered(entries), health, at));
            forall cost :: Served(b, request, entries, health, at, cost) <==> (outcome.Done? && outcome.cost == cost)
  {
    var outcome := ResultOf(b, CallOf(request, Registered(entries), health, at));
    forall cost ensures Served(b, request, entries, health, at, cost) <==> (outcome.Done? && outcome.cost == cost) {
      RequestUsesRegistry(b, request, entries, health, at, cost);
      if outcome.Done? { assert outcome == Done(outcome.index, outcome.cost); }
    }
  }

  class GenerationService {
    const registry: ModelRegistry
    var log: seq<Cost>
    var budgets: map<nat, real>
    var paused: set<nat>
    var day: nat

    function State(): Books
      reads this
    {
      Books(log, budgets, paused, day)
    }

    constructor (registry: ModelRegistry, budgets: map<nat, real>)
      ensures this.registry == registry && State() == Books([], budgets, {}, 0)
    {
      this.registry := registry;
      this.budgets := budgets;
      log, paused, day := [], {}, 0;
    }

    /** Refusing pauses the agent. */
    method Allow(agent: Option<nat>, amount: real) returns (ok: bool)
      modifies this`paused
      ensures ok == CanSpend(log, budgets, agent, day, amount)
      ensures paused == if ok || agent.None? then old(paused) else old(paused) + {agent.value}
    {
      if agent.None? {
        return true;
      }
      var budget := if agent.value in budgets then budgets[agent.value] else 0.0;
      if budget <= 0.0 {
        return true;
      }
      ok := SpentOn(log, agent.value, day) + amount <= budget;
      if !ok {
        paused := paused + {agent.value};
      }
    }

    /**
     * The registry is asked unless the cache has the answer.  Then there is a result exactly when an
     * entry of what was registered is used, whatever the order of registration was.
     */
    method Generate(request: Request, at: Moment) returns (outcome: Outcome)
      requires 0 < at.ttl && registry.Valid()
      modifies this, registry`health
      ensures registry.Valid()
      ensures !request.cacheHit ==>
                forall cost ::
                  Served(old(State()), request, old(registry.Registrations(request.capability)),
                         old(registry.health), at, cost)
                  <==> (outcome.Done? && outcome.cost == cost)
      ensures var call := CallOf(request, old(registry.List(request.capability)), old(registry.health), at);
              outcome == ResultOf(old(State()), call) && State() == Settled(old(State()), call)
    {
      if request.cacheHit {
        return Done(0, 0.0);
      }
      ghost var call := CallOf(request, registry.List(request.capability), registry.health, at);
      ServedIff(State(), request, registry.Registrations(request.capability), registry.health, at);
      var chain := registry.Resolve(request.capability, request.maxCost, at.now, at.ttl, at.probe);
      if chain.None? {
        return BackendUnavailable;
      }
      outcome := TryChain(request.agent, chain.value, request.attempt, call);
    }

    /** The loop over the chain. */
    method TryChain(agent: Option<nat>, chain: seq<Backend>, attempt: Backend -> Attempt, ghost call: Call)
      returns (outcome: Outcome)
      requires call == Call(agent, false, Some(chain), attempt)
      modifies this`log, this`paused
      ensures outcome == ResultOf(old(State()), call)
      ensures State() == Settled(old(State()), call)
    {
      ghost var affordable := Affordable(State(), agent);
      var i := 0;
      while i < |chain|
        invariant 0 <= i <= |chain| && State() == old(State())
        invariant Tried(chain, affordable, attempt, 0) == Tried(chain, affordable, attempt, i)
      {
        var ok := Allow(agent, chain[i].unitCost);
        if !ok {
          return BudgetExceeded(i);
        }
        match attempt(chain[i]) {
          case Succeeds(cost) =>
            log := log + [Cost(agent, cost, day)];
            return Done(i, cost);
          case Fails =>
        }
        i := i + 1;
      }
      outcome := BackendUnavailable;
    }
  }

  // ---------- The budget ----------

  /** No backend charges more than its unit cost, or less than nothing. */
  ghost predicate Honest(call: Call) {
    forall b :: call.attempt(b).Succeeds? ==> 0.0 <= call.attempt(b).cost <= b.unitCost
  }

  ghost predicate WithinBudget(b: Books) {
    forall agent :: agent in b.budgets && b.budgets[agent] > 0.0 ==> SpentOn(b.log, agent, b.day) <= b.budgets[agent]
  }

  lemma SpentPush(log: seq<Cost>, c: Cost, agent: nat, day: nat)
    ensures SpentOn(log + [c], agent, day)
            == SpentOn(log, agent, day) + if c.agent == Some(agent) && c.day == day then c.amount else 0.0
  {
    assert (log + [c])[..|log + [c]| - 1] == log;
  }

  lemma SettledWithinBudget(b: Books, call: Call)
    requires WithinBudget(b) && Honest(call)
    ensures WithinBudget(Settled(b, call))
  {
    var outcome := ResultOf(b, call);
    if outcome.Done? && !call.cacheHit {
      TriedIff(call.chain.value, Affordable(b, call.agent), call.attempt, 0, outcome.index, outcome.cost);
      var c := Cost(call.agent, outcome.cost, b.day);
      forall agent | agent in b.budgets && b.budgets[agent] > 0.0
        ensures SpentOn(b.log + [c], agent, b.day) <= b.budgets[agent]
      {
        SpentPush(b.log, c, agent, b.day);
      }
    }
  }

  /** An amount is allowed exactly when with it in the log the agent's day is within its budget. */
  lemma CanSpendIff(log: seq<Cost>, budgets: map<nat, real>, agent: nat, day: nat, amount: real)
    ensures CanSpend(log, budgets, None, day, amount)
    ensures CanSpend(log, budgets, Some(agent), day, amount) <==>
              agent !in budgets || budgets[agent] <= 0.0
              || SpentOn(log + [Cost(Some(agent), amount, day)], agent, day) <= budgets[agent]
  {
    SpentPush(log, Cost(Some(agent), amount, day), agent, day);
  }

  /** What a call costs an agent on a day: its result's cost, if it was the agent's and no cache hit. */
  function Charge(b: Books, call: Call, agent: nat, day: nat): real {
    var outcome := ResultOf(b, call);
    if outcome.Done? && !call.cacheHit && call.agent == Some(agent) && b.day == day then outcome.cost else 0.0
  }

  /** The log gains exactly that, and the agent is paused exactly when its budget stopped the call. */
  lemma SettledBooks(b: Books, call: Call, agent: nat, day: nat)
    ensures var after, outcome := Settled(b, call), ResultOf(b, call);
            && SpentOn(after.log, agent, day) == SpentOn(b.log, agent, day) + Charge(b, call, agent, day)
            && after.budgets == b.budgets && after.day == b.day
            && (call.cacheHit ==> outcome.Done? && after == b)
            && (agent in after.paused <==> agent in b.paused || (outcome.BudgetExceeded? && call.agent == Some(agent)))
  {
    var outcome := ResultOf(b, call);
    if outcome.Done? && !call.cacheHit { SpentPush(b.log, Cost(call.agent, outcome.cost, b.day), agent, day); }
  }

  datatype Event = Generated(call: Call) | NextDay

  /** Nothing is logged for days to come. */
  ghost predicate Dated(b: Books) {
    forall k :: 0 <= k < |b.log| ==> b.log[k].day <= b.day
  }

  lemma {:induction false} NothingSpentYet(log: seq<Cost>, agent: nat, day: nat)
    requires forall k :: 0 <= k < |log| ==> log[k].day < day
    ensures SpentOn(log, agent, day) == 0.0
  {
    if |log| > 0 {
      NothingSpentYet(log[..|log| - 1], agent, day);
    }
  }

  function Next(b: Books, e: Event): Books {
    match e
    case Generated(call) => Settled(b, call)
    case NextDay => b.(day := b.day + 1)
  }

  function AfterAll(b: Books, events: seq<Event>): Books {
    if |events| == 0 then b else Next(AfterAll(b, events[..|events| - 1]), events[|events| - 1])
  }

  /** The charges of all calls, each at the books it found. */
  function Charges(b: Books, events: seq<Event>, agent: nat, day: nat): real {
    if |events| == 0 then 0.0
    else
      var before, last := events[..|events| - 1], events[|events| - 1];
      Charges(b, before, agent, day)
      + if last.Generated? then Charge(AfterAll(b, before), last.call, agent, day) else 0.0
  }

  /** Over any sequence of calls and days the log gains exactly what the results cost. */
  lemma {:induction false} BooksBalance(b: Books, events: seq<Event>, agent: nat, day: nat)
    ensures SpentOn(AfterAll(b, events).log, agent, day) == SpentOn(b.log, agent, day) + Charges(b, events, agent, day)
    decreases |events|
  {
    if |events| > 0 {
      var before, last := events[..|events| - 1], events[|events| - 1];
      BooksBalance(b, before, agent, day);
      if last.Generated? { SettledBooks(AfterAll(b, before), last.call, agent, day); }
    }
  }

  /** Over any sequence of calls and days no agent spends more than its budget in a day. */
  lemma {:induction false} BudgetHolds(b: Books, events: seq<Event>)
    requires WithinBudget(b) && Dated(b)
    requires forall k :: 0 <= k < |events| && events[k].Generated? ==> Honest(events[k].call)
    ensures WithinBudget(AfterAll(b, events)) && Dated(AfterAll(b, events))
    decreases |events|
  {
    if |events| > 0 {
      var before, last := events[..|events| - 1], events[|events| - 1];
      BudgetHolds(b, before);
      var now := AfterAll(b, before);
      match last
      case Generated(call) => SettledWithinBudget(now, call);
      case NextDay =>
        forall agent | agent in now.budgets && now.budgets[agent] > 0.0
          ensures SpentOn(now.log, agent, now.day + 1) <= now.budgets[agent]
        {
          NothingSpentYet(now.log, agent, now.day + 1);
        }
    }
  }
}
