/**
 * Claim accounting over the event log: a claim always spends an entry into a waiting state,
 * DONE is final, and the number of executions of a task is bounded by its retry and
 * deferral allowance plus the times somebody revived it.
 */
module Accounting {
  import opened Wrappers
  import opened TaskStates
  import opened Lifecycle
  import opened Spawning
  import opened NoStranded

  predicate EntersWaiting(e: Event) {
    Waiting(e.to) && (e.from.None? || !Waiting(e.from.value))
  }

  predicate Revives(e: Event) {
    e.reason.Revived? || e.reason.Requeued?
  }

  ghost function Claims(es: seq<Event>, k: Key): nat {
    if |es| == 0 then 0
    else
      var e := es[|es| - 1];
      Claims(es[..|es| - 1], k) + if e.key == k && e.reason.Claimed? then 1 else 0
  }

  ghost function Entries(es: seq<Event>, k: Key): nat {
    if |es| == 0 then 0
    else
      var e := es[|es| - 1];
      Entries(es[..|es| - 1], k) + if e.key == k && EntersWaiting(e) then 1 else 0
  }

  ghost function Revivals(es: seq<Event>, k: Key): nat {
    if |es| == 0 then 0
    else
      var e := es[|es| - 1];
      Revivals(es[..|es| - 1], k) + if e.key == k && Revives(e) then 1 else 0
  }

  lemma LogOne(es: seq<Event>, e: Event, k: Key)
    ensures Claims(es + [e], k) == Claims(es, k) + if e.key == k && e.reason.Claimed? then 1 else 0
    ensures Entries(es + [e], k) == Entries(es, k) + if e.key == k && EntersWaiting(e) then 1 else 0
    ensures Revivals(es + [e], k) == Revivals(es, k) + if e.key == k && Revives(e) then 1 else 0
  {
    assert (es + [e])[..|es|] == es;
  }

  function Max(a: int, b: int): int { if a < b then b else a }

  /** Automatic requeues a row can still have. */
  function Allowance(t: TaskRow): nat {
    Max(0, t.maxRetry - t.retryCount) + Max(0, MAX_DEFERRALS - t.deferrals)
  }

  /** 1 when the row can be claimed right now. */
  ghost function Claimable(w: World, k: Key): nat {
    if k in w.tasks && Waiting(w.tasks[k].state) then 1 else 0
  }

  /** Executions a task can still have without being revived, created or not. */
  ghost function Fuel(w: World, k: Key): nat {
    if k in w.tasks then Claimable(w, k) + Allowance(w.tasks[k]) else 1 + Allowance(NewRow(k, 0))
  }

  /** Entries into the waiting states that no claim has used. */
  ghost function Slack(w: World, k: Key): int {
    Entries(w.events, k) - Claims(w.events, k) - Claimable(w, k)
  }

  ghost predicate Accounted(w: World, after: World, k: Key) {
    && Slack(after, k) >= Slack(w, k)
    && Claims(after.events, k) + Fuel(after, k) - Revivals(after.events, k)
       <= Claims(w.events, k) + Fuel(w, k) - Revivals(w.events, k)
    && Claims(after.events, k) >= Claims(w.events, k)
    && Revivals(after.events, k) >= Revivals(w.events, k)
    && (k in w.tasks ==> k in after.tasks)
    && (k in w.tasks && w.tasks[k].state.Done? ==>
          after.tasks[k].state.Done? && Claims(after.events, k) == Claims(w.events, k))
  }

  /** The same accounting for a row change that logs at most one event. */
  ghost predicate RowAccounted(w: World, after: World, e: Event, logged: bool, k: Key) {
    var hit := logged && e.key == k;
    var claimed := if hit && e.reason.Claimed? then 1 else 0;
    var entered := if hit && EntersWaiting(e) then 1 else 0;
    var revived := if hit && Revives(e) then 1 else 0;
    && after.events == (if logged then w.events + [e] else w.events)
    && Claimable(after, k) + claimed <= Claimable(w, k) + entered
    && claimed + Fuel(after, k) <= Fuel(w, k) + revived
    && (k in w.tasks ==> k in after.tasks)
    && (k in w.tasks && w.tasks[k].state.Done? ==> after.tasks[k].state.Done? && claimed == 0)
  }

  lemma AccountedRow(w: World, after: World, e: Event, logged: bool, k: Key)
    requires RowAccounted(w, after, e, logged, k)
    ensures Accounted(w, after, k)
  {
    LogOne(w.events, e, k);
  }

  lemma AccountedCreate(w: World, j: Key, order: nat, k: Key)
    ensures Accounted(w, CreateTask(w, j, order), k)
  {
    var after := CreateTask(w, j, order);
    if j !in w.tasks {
      AccountedRow(w, after, Event(j, None, Queued, Created), true, k);
    } else if Dead(w.tasks[j].state) {
      AccountedRow(w, after, Event(j, Some(w.tasks[j].state), Queued, Revived), true, k);
    }
  }

  lemma AccountedCreateAll(w: World, reqs: seq<Request>, k: Key)
    ensures Accounted(w, CreateAll(w, reqs), k)
  {
    if |reqs| > 0 {
      var before := CreateAll(w, reqs[..|reqs| - 1]);
      AccountedCreateAll(w, reqs[..|reqs| - 1], k);
      AccountedCreate(before, reqs[|reqs| - 1].key, reqs[|reqs| - 1].order, k);
    }
  }

  lemma AccountedTakeJob(w: World, j: Key, redeliver: bool, k: Key)
    ensures Accounted(w, TakeJob(w, j, redeliver), k)
  {
    var after := TakeJob(w, j, redeliver);
    if j in w.tasks && Waiting(w.tasks[j].state) {
      AccountedRow(w, after, Event(j, Some(Queued), Running, Claimed), true, k);
    }
  }

  lemma AccountedComplete(w: World, j: Key, k: Key)
    requires j in w.tasks
    ensures Accounted(w, Complete(w, j), k)
  {
    AccountedRow(w, Complete(w, j), Event(j, Some(Running), Done, Completed), true, k);
  }

  /** A requeue that happens has just spent one retry or one deferral. */
  lemma AccountedRequeue(w: World, spent: TaskRow, j: Key, to: TaskState, after: World, k: Key)
    requires j in w.tasks && (to.Retry? || to.Fallback?)
    requires spent.state == w.tasks[j].state && Allowance(spent) + 1 == Allowance(w.tasks[j])
    requires after == Requeue(w.(tasks := w.tasks[j := spent]), j, to)
    ensures Accounted(w, after, k)
  {
    AccountedRow(w, after, Event(j, Some(spent.state), to, Handled), CanTransition(spent.state, to), k);
  }

  lemma AccountedGiveUp(w: World, j: Key, to: TaskState, mark: bool, after: World, k: Key)
    requires j in w.tasks && (to.Escalated? || to.Failed?) && after == GiveUp(w, j, to, mark)
    ensures Accounted(w, after, k)
  {
    var from := w.tasks[j].state;
    AccountedRow(w, after, Event(j, Some(from), to, Handled), CanTransition(from, to), k);
  }

  lemma AccountedDefer(w: World, j: Key, after: World, k: Key)
    requires j in w.tasks && after == Defer(w, j)
    ensures Accounted(w, after, k)
  {
    var t := w.tasks[j];
    if t.deferrals + 1 > MAX_DEFERRALS {
      AccountedGiveUp(w, j, Escalated, false, after, k);
    } else {
      AccountedRequeue(w, t.(deferrals := t.deferrals + 1), j, Retry, after, k);
    }
  }

  lemma AccountedRetry(w: World, j: Key, to: TaskState, after: World, k: Key)
    requires j in w.tasks && (to.Retry? || to.Fallback?) && after == RetryOrEscalate(w, j, to)
    ensures Accounted(w, after, k)
  {
    var t := w.tasks[j];
    if t.retryCount >= t.maxRetry {
      AccountedGiveUp(w, j, Escalated, true, after, k);
    } else {
      AccountedRequeue(w, t.(retryCount := t.retryCount + 1), j, to, after, k);
    }
  }

  lemma AccountedHandle(w: World, j: Key, f: FailureClass, after: World, k: Key)
    requires after == Handle(w, j, f)
    ensures Accounted(w, after, k)
  {
    if j in w.tasks {
      if f.Deferred? {
        AccountedDefer(w, j, after, k);
      } else if f.PolicyViolation? {
        AccountedGiveUp(w, j, Failed, false, after, k);
      } else if f.BudgetExceeded? {
        AccountedGiveUp(w, j, Escalated, true, after, k);
      } else if f.InvalidInput? {
        AccountedGiveUp(w, j, Failed, true, after, k);
      } else {
        AccountedRetry(w, j, if f.BackendUnavailable? then Fallback else Retry, after, k);
      }
    }
  }

  lemma AccountedOn(w: World, before: World, after: World, k: Key)
    requires Accounted(w, before, k) && Accounted(before, after, k)
    ensures Accounted(w, after, k)
  {
  }

  /** Two rows of the log: through RUNNING, and back to QUEUED, which counts as a revival. */
  lemma AccountedManualRetry(w: World, j: Key, after: World, k: Key)
    requires j in w.tasks && after == ManualRetry(w, j)
    ensures Accounted(w, after, k)
  {
    if after != w {
      var t := w.tasks[j];
      var running := MoveTo(w.(tasks := w.tasks[j := t.(retryCount := t.retryCount + 1)]), j, Running, ManuallyRetried);
      AccountedRow(w, running, Event(j, Some(t.state), Running, ManuallyRetried), true, k);
      AccountedRow(running, after, Event(j, Some(Running), Queued, Requeued), true, k);
      AccountedOn(w, running, after, k);
    }
  }

  lemma AccountedSla(w: World, j: Key, k: Key)
    requires j in w.tasks
    ensures Accounted(w, SlaBreach(w, j), k)
  {
    AccountedRow(w, SlaBreach(w, j), Event(j, Some(Running), Escalated, SlaBreached), SlaBreach(w, j) != w, k);
  }

  lemma AccountedManualCancel(w: World, j: Key, k: Key)
    requires j in w.tasks
    ensures Accounted(w, ManualCancel(w, j), k)
  {
    var e := Event(j, Some(w.tasks[j].state), Cancelled, ManuallyCancelled);
    AccountedRow(w, ManualCancel(w, j), e, ManualCancel(w, j) != w, k);
  }

  lemma AccountedOrderCancel(w: World, order: nat, k: Key)
    ensures Accounted(w, OrderCancel(w, order), k)
  {
    AccountedRow(w, OrderCancel(w, order), Event(k, None, Queued, Created), false, k);
  }

  /** Steps that leave task rows and events as they are. */
  lemma AccountedSame(w: World, after: World, k: Key)
    requires after.tasks == w.tasks && after.events == w.events
    ensures Accounted(w, after, k)
  {
  }

  /** Accounting looks at task rows and events only. */
  lemma AccountedSides(w: World, side: World, side': World, after: World, k: Key)
    requires side.tasks == w.tasks && side.events == w.events
    requires side'.tasks == after.tasks && side'.events == after.events
    requires Accounted(side, side', k)
    ensures Accounted(w, after, k)
  {
  }

  lemma AccountedDelivered(w: World, j: Key, approve: bool, ack: bool, after: World, k: Key)
    requires after == OnTaskDone(Drop(w, DoneNotice(j), ack), j, approve)
    ensures Accounted(w, after, k)
  {
    var dropped := Drop(w, DoneNotice(j), ack);
    var reqs := OnTaskDoneSpawns(dropped, j, approve);
    AccountedCreateAll(TaskSide(dropped), reqs, k);
    AccountedSides(w, TaskSide(dropped), TaskSide(after), after, k);
  }

  lemma AccountedStep(w: World, s: Step, k: Key)
    requires Enabled(w, s)
    ensures Accounted(w, Apply(w, s), k)
  {
    match s
    case SubmitStep(o) => AccountedCreate(w, Key(Selection, OfOrder(o), None, 1), o, k);
    case RequestStep(j, o) => AccountedCreate(w, j, o, k);
    case TakeJobStep(j, redeliver) => AccountedTakeJob(w, j, redeliver, k);
    case CompleteStep(j) => AccountedComplete(w, j, k);
    case DeliverFailedStep(j, f, ack) =>
      var dropped := Drop(w, FailNotice(j, f), ack);
      AccountedHandle(dropped, j, f, Apply(w, s), k);
      AccountedSides(w, dropped, Apply(w, s), Apply(w, s), k);
    case DeliverDoneStep(j, approve, ack) =>
      AccountedDelivered(w, j, approve, ack, Apply(w, s), k);
    case ManualRetryStep(j) => AccountedManualRetry(w, j, Apply(w, s), k);
    case SlaStep(j) => AccountedSla(w, j, k);
    case ManualCancelStep(j) => AccountedManualCancel(w, j, k);
    case OrderCancelStep(o) => AccountedOrderCancel(w, o, k);
    case _ => AccountedSame(w, Apply(w, s), k);
  }

  lemma {:induction false} AccountedRun(w: World, steps: seq<Step>, k: Key)
    requires ValidRun(w, steps)
    ensures Accounted(w, After(w, steps), k)
    decreases |steps|
  {
    if |steps| > 0 {
      AccountedStep(w, steps[0], k);
      AccountedRun(Apply(w, steps[0]), steps[1..], k);
    }
  }

  /** In every reachable world, no task has been claimed more often than it entered a waiting state. */
  lemma ClaimsNeverExceedEntries(steps: seq<Step>, maxQcAttempts: nat, k: Key)
    requires ValidRun(Initial(maxQcAttempts), steps)
    ensures var w := After(Initial(maxQcAttempts), steps);
      Claims(w.events, k) + Claimable(w, k) <= Entries(w.events, k)
  {
    AccountedRun(Initial(maxQcAttempts), steps, k);
  }

  /** Once DONE, no later step changes the state or grants a claim. */
  lemma DoneIsFinal(w: World, steps: seq<Step>, k: Key)
    requires ValidRun(w, steps) && k in w.tasks && w.tasks[k].state.Done?
    ensures var after := After(w, steps);
      k in after.tasks && after.tasks[k].state.Done? && Claims(after.events, k) == Claims(w.events, k)
  {
    AccountedRun(w, steps, k);
  }

  /** DONE freezes the state only: a late failure notice still moves the counters of a DONE row. */
  lemma DoneRowStillCounts(w: World, k: Key)
    requires k in w.tasks && w.tasks[k].state.Done? && w.tasks[k].retryCount < w.tasks[k].maxRetry
    ensures Handle(w, k, Transient).tasks[k] == w.tasks[k].(retryCount := w.tasks[k].retryCount + 1)
    ensures Handle(w, k, Transient).jobs == w.jobs
  {
  }

  /** From any world on: executions gained are at most the fuel left plus the revivals. */
  lemma AutomationIsBounded(w: World, steps: seq<Step>, k: Key)
    requires ValidRun(w, steps)
    ensures var after := After(w, steps);
      Claims(after.events, k) - Claims(w.events, k)
        <= Fuel(w, k) + Revivals(after.events, k) - Revivals(w.events, k)
  {
    AccountedRun(w, steps, k);
  }

  /** The bound in numbers, for a task from before its creation. */
  lemma FreshTaskBound(steps: seq<Step>, maxQcAttempts: nat, k: Key)
    requires ValidRun(Initial(maxQcAttempts), steps) && k.attempt >= 1
    requires Revivals(After(Initial(maxQcAttempts), steps).events, k) == 0
    ensures Claims(After(Initial(maxQcAttempts), steps).events, k)
      <= 1 + Max(0, SpecMaxRetry(k.kind) - (k.attempt - 1)) + MAX_DEFERRALS
  {
    AutomationIsBounded(Initial(maxQcAttempts), steps, k);
  }

  lemma GiveUpKeepsCounters(w: World, k: Key, to: TaskState, mark: bool)
    requires k in w.tasks
    ensures GiveUp(w, k, to, mark).jobs == w.jobs && k in GiveUp(w, k, to, mark).tasks
    ensures GiveUp(w, k, to, mark).tasks[k] == w.tasks[k].(state := GiveUp(w, k, to, mark).tasks[k].state)
  {
  }

  lemma DeferSpends(w: World, k: Key)
    requires k in w.tasks
    ensures var after := Defer(w, k);
      && k in after.tasks
      && (after.jobs != w.jobs ==> Allowance(after.tasks[k]) < Allowance(w.tasks[k]))
      && Allowance(after.tasks[k]) <= Allowance(w.tasks[k]) && after.tasks[k].retryCount == w.tasks[k].retryCount
  {
    if w.tasks[k].deferrals + 1 > MAX_DEFERRALS { GiveUpKeepsCounters(w, k, Escalated, false); }
  }

  lemma RetrySpends(w: World, k: Key, to: TaskState)
    requires k in w.tasks
    ensures var after := RetryOrEscalate(w, k, to);
      && k in after.tasks
      && (after.jobs != w.jobs ==> Allowance(after.tasks[k]) < Allowance(w.tasks[k]))
      && Allowance(after.tasks[k]) <= Allowance(w.tasks[k]) && after.tasks[k].deferrals == w.tasks[k].deferrals
  {
    if w.tasks[k].retryCount >= w.tasks[k].maxRetry { GiveUpKeepsCounters(w, k, Escalated, true); }
  }

  /** An automatic requeue strictly spends the allowance, and a deferral never touches retryCount. */
  lemma RequeueSpends(w: World, k: Key, f: FailureClass)
    requires k in w.tasks
    ensures var after := Handle(w, k, f);
      && k in after.tasks
      && (after.jobs != w.jobs ==> Allowance(after.tasks[k]) < Allowance(w.tasks[k]))
      && Allowance(after.tasks[k]) <= Allowance(w.tasks[k])
      && (f.Deferred? ==> after.tasks[k].retryCount == w.tasks[k].retryCount)
      && (!f.Deferred? ==> after.tasks[k].deferrals == w.tasks[k].deferrals)
  {
    if f.Deferred? {
      DeferSpends(w, k);
    } else if f.PolicyViolation? || f.InvalidInput? {
      GiveUpKeepsCounters(w, k, Failed, f.InvalidInput?);
    } else if f.BudgetExceeded? {
      GiveUpKeepsCounters(w, k, Escalated, true);
    } else {
      RetrySpends(w, k, if f.BackendUnavailable? then Fallback else Retry);
    }
  }

  /** A failure notice for a row that is DONE, CANCELLED or QUEUED again changes at most its counters. */
  lemma RefusedFailureLeavesState(w: World, k: Key, f: FailureClass)
    requires k in w.tasks && (w.tasks[k].state.Done? || w.tasks[k].state.Cancelled? || w.tasks[k].state.Queued?)
    ensures Handle(w, k, f).tasks[k].state == w.tasks[k].state
    ensures Handle(w, k, f).jobs == w.jobs && Handle(w, k, f).events == w.events && Handle(w, k, f).scenes == w.scenes
  {
    assert forall to :: to in {Retry, Fallback, Escalated, Failed} ==> !CanTransition(w.tasks[k].state, to);
  }
}
