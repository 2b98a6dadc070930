/**
 * What a failure and an operator's action lead to, in numbers: which failures are tried again, that
 * the bound on executions is attained, and what retry, cancellation and escalation do to a row.
 */
module Failures {
  import opened Wrappers
  import opened TaskStates
  import opened Lifecycle
  import opened NoStranded
  import opened FollowUps
  import A = Accounting

  // ---------- Failures ----------

  /** A deferral up to the 24th, and a failure that may pass while retries are left. */
  ghost predicate TriedAgain(t: TaskRow, f: FailureClass) {
    (f == Deferred && t.deferrals < 24)
    || ((f == BackendUnavailable || f == Transient || f == RetryExhausted) && t.retryCount < t.maxRetry)
  }

  /** The row that the failure leaves behind. */
  ghost function Outcome(t: TaskRow, f: FailureClass): TaskRow {
    if TriedAgain(t, f) then
      TaskRow(t.order, if f == BackendUnavailable then Fallback else Retry,
              if f == Deferred then t.retryCount else t.retryCount + 1, t.maxRetry,
              if f == Deferred then t.deferrals + 1 else t.deferrals)
    else t.(state := if f == PolicyViolation || f == InvalidInput then Failed else Escalated)
  }

  /** The scene is given up with its task, unless the task is put off too often, barred by policy or a publish. */
  ghost predicate SceneGivenUp(w: World, k: Key, f: FailureClass)
    requires k in w.tasks
  {
    !TriedAgain(w.tasks[k], f) && f != Deferred && f != PolicyViolation
    && k.kind != Publish && k.scene.Some? && k.scene.value < |w.scenes|
  }

  /** What one handled failure does: the row it leaves, whether it is queued again, whether its scene is lost. */
  ghost predicate Handles(w: World, after: World, k: Key, row: TaskRow, again: bool, lost: bool)
    requires k in w.tasks && (lost ==> k.scene.Some? && k.scene.value < |w.scenes|)
  {
    && OnlyTouches(w, after, {k}) && after.tasks == w.tasks[k := row]
    && after.jobs == (if again then w.jobs + multiset{k} else w.jobs)
    && after.events == w.events + [Event(k, Some(Running), row.state, Handled)]
    && after.scenes == if lost then w.scenes[k.scene.value := w.scenes[k.scene.value].(status := SceneFailed)]
                       else w.scenes
  }

  /**
   * A failure of a RUNNING task: exactly when it is tried again there is one more job, and in every
   * case the row, the log and the scene are what the class of the failure says.
   */
  lemma FailureOutcome(w: World, k: Key, f: FailureClass)
    requires k in w.tasks && w.tasks[k].state == Running
    ensures Handles(w, Handle(w, k, f), k, Outcome(w.tasks[k], f), TriedAgain(w.tasks[k], f), SceneGivenUp(w, k, f))
  {
    var after := Handle(w, k, f);
    if f == Deferred {
      DeferOutcome(w, k, after);
    } else if f == BackendUnavailable || f == Transient || f == RetryExhausted {
      RetryOutcome(w, k, f, if f == BackendUnavailable then Fallback else Retry, after);
    } else {
      GiveUpOutcome(w, k, if f == BudgetExceeded then Escalated else Failed, f != PolicyViolation, after);
    }
  }

  lemma GiveUpOutcome(w: World, k: Key, to: TaskState, mark: bool, after: World)
    requires k in w.tasks && w.tasks[k].state == Running && (to == Escalated || to == Failed)
    requires after == GiveUp(w, k, to, mark)
    ensures Handles(w, after, k, w.tasks[k].(state := to), false,
                    mark && k.kind != Publish && k.scene.Some? && k.scene.value < |w.scenes|)
  {
  }

  lemma RequeueOutcome(w: World, k: Key, spent: TaskRow, to: TaskState, after: World)
    requires k in w.tasks && w.tasks[k].state == spent.state == Running && (to == Retry || to == Fallback)
    requires after == Requeue(w.(tasks := w.tasks[k := spent]), k, to)
    ensures Handles(w, after, k, spent.(state := to), true, false)
  {
    assert w.tasks[k := spent][k := spent.(state := to)] == w.tasks[k := spent.(state := to)];
  }

  lemma DeferOutcome(w: World, k: Key, after: World)
    requires k in w.tasks && w.tasks[k].state == Running && after == Defer(w, k)
    ensures Handles(w, after, k, Outcome(w.tasks[k], Deferred), TriedAgain(w.tasks[k], Deferred), false)
  {
    var t := w.tasks[k];
    if t.deferrals < 24 {
      RequeueOutcome(w, k, t.(deferrals := t.deferrals + 1), Retry, after);
    } else {
      GiveUpOutcome(w, k, Escalated, false, after);
    }
  }

  lemma RetryOutcome(w: World, k: Key, f: FailureClass, to: TaskState, after: World)
    requires k in w.tasks && w.tasks[k].state == Running && after == RetryOrEscalate(w, k, to)
    requires f == BackendUnavailable || f == Transient || f == RetryExhausted
    requires to == if f == BackendUnavailable then Fallback else Retry
    ensures Handles(w, after, k, Outcome(w.tasks[k], f), TriedAgain(w.tasks[k], f), SceneGivenUp(w, k, f))
  {
    var t := w.tasks[k];
    if t.retryCount < t.maxRetry {
      RequeueOutcome(w, k, t.(retryCount := t.retryCount + 1), to, after);
    } else {
      GiveUpOutcome(w, k, Escalated, true, after);
    }
  }

  // ---------- The bound is attained ----------

  ghost predicate Claimable(w: World, k: Key) {
    k in w.tasks && Waiting(w.tasks[k].state) && k in w.jobs
  }

  /** A claimed run that fails as f, its notice handled: the task is claimable again, one claim later. */
  lemma FailsOnce(w: World, k: Key, f: FailureClass) returns (steps: seq<Step>)
    requires Claimable(w, k) && TriedAgain(w.tasks[k], f)
    ensures ValidRun(w, steps) && Claimable(After(w, steps), k)
    ensures After(w, steps).tasks[k] == Outcome(w.tasks[k], f)
    ensures A.Claims(After(w, steps).events, k) == A.Claims(w.events, k) + 1
    ensures A.Revivals(After(w, steps).events, k) == A.Revivals(w.events, k)
  {
    var claimed, r := ClaimOne(w, k);
    var failed, after := FailedAndHandled(claimed, r, f);
    OneStep(w, TakeJobStep(k, false));
    steps := ThenStep(w, [TakeJobStep(k, false)], claimed, FailStep(r, f), failed);
    steps := ThenStep(w, steps, failed, DeliverFailedStep(k, f, true), after);
  }

  lemma FailedAndHandled(claimed: World, r: Run, f: FailureClass) returns (failed: World, after: World)
    requires r in claimed.runs && r.key in claimed.tasks && claimed.tasks[r.key].state == Running
    requires TriedAgain(claimed.tasks[r.key], f)
    ensures Enabled(claimed, FailStep(r, f)) && failed == Apply(claimed, FailStep(r, f))
    ensures var handled := DeliverFailedStep(r.key, f, true);
      Enabled(failed, handled) && after == Apply(failed, handled)
    ensures Claimable(after, r.key)
    ensures after.tasks[r.key] == Outcome(claimed.tasks[r.key], f)
    ensures A.Claims(after.events, r.key) == A.Claims(claimed.events, r.key)
    ensures A.Revivals(after.events, r.key) == A.Revivals(claimed.events, r.key)
  {
    failed := FailRun(claimed, r, f);
    var dropped := Drop(failed, FailNotice(r.key, f), true);
    FailureOutcome(dropped, r.key, f);
    after := Handle(dropped, r.key, f);
    A.LogOne(claimed.events, Event(r.key, Some(Running), after.tasks[r.key].state, Handled), r.key);
  }

  lemma ClaimOne(w: World, k: Key) returns (claimed: World, r: Run)
    requires Claimable(w, k)
    ensures Enabled(w, TakeJobStep(k, false)) && claimed == Apply(w, TakeJobStep(k, false))
    ensures r in claimed.runs && r.key == k
    ensures k in claimed.tasks && claimed.tasks[k] == w.tasks[k].(state := Running)
    ensures A.Claims(claimed.events, k) == A.Claims(w.events, k) + 1
    ensures A.Revivals(claimed.events, k) == A.Revivals(w.events, k)
  {
    claimed := TakeJob(w, k, false);
    var w' := w.(jobs := w.jobs - multiset{k});
    var produced := StartRunEffect(w', k);
    r := Run(k, produced);
    A.LogOne(w.events, Event(k, Some(Queued), Running, Claimed), k);
    ClaimLogged(w', k);
  }

  lemma ClaimLogged(w: World, k: Key)
    requires k in w.tasks
    ensures StartRun(w, k).events == w.events + [Event(k, Some(Queued), Running, Claimed)]
  {
  }

  /** A claimable task can be executed once more than it has retries and deferrals left, with nobody reviving it. */
  lemma {:induction false} AllowanceIsUsed(w: World, k: Key) returns (steps: seq<Step>)
    requires Claimable(w, k)
    ensures ValidRun(w, steps)
    ensures A.Claims(After(w, steps).events, k) == A.Claims(w.events, k) + 1 + A.Allowance(w.tasks[k])
    ensures A.Revivals(After(w, steps).events, k) == A.Revivals(w.events, k)
    decreases A.Allowance(w.tasks[k])
  {
    var t := w.tasks[k];
    if t.retryCount < t.maxRetry || t.deferrals < 24 {
      var f := if t.retryCount < t.maxRetry then Transient else Deferred;
      var first := FailsOnce(w, k, f);
      var rest := AllowanceIsUsed(After(w, first), k);
      Joined(w, first, After(w, first), rest);
      steps := first + rest;
    } else {
      var claimed, r := ClaimOne(w, k);
      steps := [TakeJobStep(k, false)];
      OneStep(w, TakeJobStep(k, false));
    }
  }

  /** The bound of Accounting.FreshTaskBound is attained: some run executes the task that often. */
  lemma FreshTaskBoundAttained(maxQcAttempts: nat, k: Key) returns (steps: seq<Step>)
    requires k.attempt >= 1
    ensures ValidRun(Initial(maxQcAttempts), steps)
    ensures A.Revivals(After(Initial(maxQcAttempts), steps).events, k) == 0
    ensures A.Claims(After(Initial(maxQcAttempts), steps).events, k)
         == 1 + A.Max(0, SpecMaxRetry(k.kind) - (k.attempt - 1)) + 24
  {
    var w := Initial(maxQcAttempts);
    var asked := CreateTask(w, k, 0);
    A.LogOne(w.events, Event(k, None, Queued, Created), k);
    OneStep(w, RequestStep(k, 0));
    var rest := AllowanceIsUsed(asked, k);
    Joined(w, [RequestStep(k, 0)], asked, rest);
    steps := [RequestStep(k, 0)] + rest;
  }

  /** A job in the queue starts a run exactly when its row is QUEUED, RETRY or FALLBACK; otherwise it is skipped. */
  lemma JobOutcome(w: World, k: Key, redeliver: bool)
    ensures var after := TakeJob(w, k, redeliver);
      && after.jobs == (if redeliver then w.jobs else w.jobs - multiset{k})
      && if k in w.tasks && w.tasks[k].state in {Queued, Retry, Fallback} then
           && k in after.tasks && after.tasks == w.tasks[k := w.tasks[k].(state := Running)]
           && (after.runs == w.runs + multiset{Run(k, true)} || after.runs == w.runs + multiset{Run(k, false)})
           && after.events == w.events + [Event(k, Some(Queued), Running, Claimed)]
         else after.tasks == w.tasks && after.runs == w.runs && after.scenes == w.scenes && after.events == w.events
  {
    if k in w.tasks && Waiting(w.tasks[k].state) {
      var produced := StartRunEffect(if redeliver then w else w.(jobs := w.jobs - multiset{k}), k);
      ClaimLogged(if redeliver then w else w.(jobs := w.jobs - multiset{k}), k);
    }
  }

  // ---------- Operators ----------

  /** A retry by hand requeues exactly the ESCALATED, FAILED, RETRY and FALLBACK rows, and counts as one retry. */
  lemma ManualRetryOutcome(w: World, k: Key)
    requires k in w.tasks
    ensures var after, t := ManualRetry(w, k), w.tasks[k];
      if t.state in {Escalated, Failed, Retry, Fallback} then
        && OnlyTouches(w, after, {k}) && after.scenes == w.scenes
        && after.tasks[k] == t.(state := Queued, retryCount := t.retryCount + 1)
        && after.jobs[k] == w.jobs[k] + 1
        && after.events == w.events + [Event(k, Some(t.state), Running, ManuallyRetried)]
                                    + [Event(k, Some(Running), Queued, Requeued)]
      else after == w
  {
  }

  /** A cancellation by hand: DONE and FAILED rows refuse it, every other row turns CANCELLED. */
  lemma ManualCancelOutcome(w: World, k: Key)
    requires k in w.tasks
    ensures var after, t := ManualCancel(w, k), w.tasks[k];
      if t.state in {Done, Failed} then after == w
      else
        && OnlyTouches(w, after, {k}) && after.scenes == w.scenes && after.jobs == w.jobs
        && after.tasks[k] == t.(state := Cancelled)
  {
  }

  /** An SLA breach escalates a RUNNING row and does nothing to any other. */
  lemma SlaOutcome(w: World, k: Key)
    requires k in w.tasks
    ensures var after, t := SlaBreach(w, k), w.tasks[k];
      if t.state == Running then
        && OnlyTouches(w, after, {k}) && after.scenes == w.scenes && after.jobs == w.jobs
        && after.tasks[k] == t.(state := Escalated)
      else after == w
  {
  }

  /**
   * Cancelling an order turns its waiting rows CANCELLED and touches nothing else; jobs of the order
   * left in the queue start nothing any more.
   */
  lemma OrderCancelOutcome(w: World, order: nat, k: Key, redeliver: bool)
    requires k in w.tasks
    ensures var after, t := OrderCancel(w, order), w.tasks[k];
      && k in after.tasks && after == w.(tasks := after.tasks) && after.tasks.Keys == w.tasks.Keys
      && (t.order == order && t.state in {Queued, Retry, Fallback} ==> after.tasks[k] == t.(state := Cancelled))
      && (t.order != order || t.state !in {Queued, Retry, Fallback} ==> after.tasks[k] == t)
      && (t.order == order ==>
            TakeJob(after, k, redeliver).runs == w.runs && TakeJob(after, k, redeliver).tasks == after.tasks)
  {
  }
}
