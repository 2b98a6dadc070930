/**
 * Exclusive execution.  The claim is a compare-and-set on the row, so it protects a row only
 * as long as nothing else moves a RUNNING row away.  Here is exactly which steps do.
 */
module Exclusion {
  import opened Wrappers
  import opened TaskStates
  import opened Lifecycle
  import opened Spawning
  import opened NoStranded
  import R = Rows

  ghost function FailNotices(w: World, k: Key): nat {
    w.notices[FailNotice(k, Deferred)] + w.notices[FailNotice(k, PolicyViolation)] +
    w.notices[FailNotice(k, BudgetExceeded)] + w.notices[FailNotice(k, InvalidInput)] +
    w.notices[FailNotice(k, BackendUnavailable)] + w.notices[FailNotice(k, Transient)] +
    w.notices[FailNotice(k, RetryExhausted)]
  }

  /** Executions of k that have begun and whose outcome has not been dealt with. */
  ghost function Outstanding(w: World, k: Key): nat {
    w.runs[Run(k, true)] + w.runs[Run(k, false)] + FailNotices(w, k)
  }

  ghost predicate ExclusiveAt(w: World, k: Key) {
    Outstanding(w, k) == if k in w.tasks && w.tasks[k].state.Running? then 1 else 0
  }

  /** A task is RUNNING exactly when one execution is outstanding, and there is never a second. */
  ghost predicate Exclusive(w: World) {
    forall k :: ExclusiveAt(w, k)
  }

  predicate IsRunning(w: World, k: Key) {
    k in w.tasks && w.tasks[k].state.Running?
  }

  /** No SLA escalation or cancellation of a RUNNING task, and no redelivery of a handled failure. */
  predicate Calm(w: World, s: Step) {
    match s
    case SlaStep(k) => !IsRunning(w, k)
    case ManualCancelStep(k) => !IsRunning(w, k)
    case DeliverFailedStep(_, _, ack) => ack
    case _ => true
  }

  lemma ExclusiveCreateAll(w: World, reqs: seq<Request>)
    requires Exclusive(w)
    ensures Exclusive(CreateAll(w, reqs))
  {
    if |reqs| > 0 {
      var before := CreateAll(w, reqs[..|reqs| - 1]);
      ExclusiveCreateAll(w, reqs[..|reqs| - 1]);
      var after := CreateAll(w, reqs);
      forall k ensures ExclusiveAt(after, k) {
        assert ExclusiveAt(before, k);
      }
    }
  }

  lemma ExclusiveSame(w: World, after: World)
    requires Exclusive(w) && after.tasks == w.tasks && after.runs == w.runs && after.notices == w.notices
    ensures Exclusive(after)
  {
    forall k ensures ExclusiveAt(after, k) {
      assert ExclusiveAt(w, k);
    }
  }

  lemma ExclusiveClaim(w: World, j: Key, produced: bool, after: World)
    requires Exclusive(w) && j in w.tasks && !w.tasks[j].state.Running?
    requires after.tasks == w.tasks[j := w.tasks[j].(state := Running)]
    requires after.runs == w.runs + multiset{Run(j, produced)} && after.notices == w.notices
    ensures Exclusive(after)
  {
    forall k ensures ExclusiveAt(after, k) {
      assert ExclusiveAt(w, k);
    }
  }

  lemma ExclusiveTakeJob(w: World, j: Key, redeliver: bool)
    requires Exclusive(w)
    ensures Exclusive(TakeJob(w, j, redeliver))
  {
    if j in w.tasks && Waiting(w.tasks[j].state) {
      assert ExclusiveAt(w, j);
      var produced := StartRunEffect(w, j);
      ExclusiveClaim(w, j, produced, TakeJob(w, j, redeliver));
    } else {
      ExclusiveSame(w, TakeJob(w, j, redeliver));
    }
  }

  lemma ExclusiveProduce(w: World, j: Key)
    requires Exclusive(w) && Run(j, false) in w.runs
    ensures Exclusive(Produce(w, j))
  {
    var after := Produce(w, j);
    forall k ensures ExclusiveAt(after, k) {
      assert ExclusiveAt(w, k);
      assert FailNotices(after, k) == FailNotices(w, k);
    }
  }

  lemma ExclusiveComplete(w: World, j: Key)
    requires Exclusive(w) && Run(j, true) in w.runs && j in w.tasks
    ensures Exclusive(Complete(w, j))
  {
    var after := Complete(w, j);
    forall k ensures ExclusiveAt(after, k) {
      assert ExclusiveAt(w, k);
      assert FailNotices(after, k) == FailNotices(w, k);
    }
  }

  /** Rows, runs and failure notices as they were. */
  lemma ExclusiveFrame(w: World, after: World)
    requires Exclusive(w) && after.tasks == w.tasks && after.runs == w.runs
    requires forall k, f :: after.notices[FailNotice(k, f)] == w.notices[FailNotice(k, f)]
    ensures Exclusive(after)
  {
    forall k ensures ExclusiveAt(after, k) {
      assert ExclusiveAt(w, k);
      assert FailNotices(after, k) == FailNotices(w, k);
    }
  }

  lemma ExclusiveDeliverDone(w: World, k: Key, approve: bool, ack: bool)
    requires Exclusive(w)
    ensures Exclusive(OnTaskDone(Drop(w, DoneNotice(k), ack), k, approve))
  {
    var dropped := Drop(w, DoneNotice(k), ack);
    var after := OnTaskDone(dropped, k, approve);
    var reqs := OnTaskDoneSpawns(dropped, k, approve);
    ExclusiveFrame(w, TaskSide(dropped));
    ExclusiveCreateAll(TaskSide(dropped), reqs);
    ExclusiveFrame(TaskSide(after), after);
  }

  lemma ExclusiveFailRun(w: World, r: Run, f: FailureClass)
    requires Exclusive(w) && r in w.runs
    ensures Exclusive(FailRun(w, r, f))
  {
    var after := FailRun(w, r, f);
    assert r == Run(r.key, true) || r == Run(r.key, false);
    forall k ensures ExclusiveAt(after, k) {
      assert ExclusiveAt(w, k);
      assert FailNotices(after, k) == FailNotices(w, k) + if k == r.key then 1 else 0;
    }
  }

  /** An acknowledged failure ends its execution; an unacknowledged one stays outstanding on a row that moved on. */
  lemma ExclusiveHandle(w: World, k: Key, f: FailureClass, ack: bool)
    requires Exclusive(w) && FailNotice(k, f) in w.notices
    ensures Exclusive(Handle(Drop(w, FailNotice(k, f), ack), k, f)) <==> ack
  {
    var dropped := Drop(w, FailNotice(k, f), ack);
    var after := Handle(dropped, k, f);
    assert ExclusiveAt(w, k);
    HandleEffect(dropped, k, f);
    if ack {
      ExclusiveEnded(w, after, k, f);
    } else {
      assert FailNotices(after, k) >= 1;
      assert !ExclusiveAt(after, k);
    }
  }

  /** The row of k is no longer RUNNING and its one notice is gone. */
  lemma ExclusiveEnded(w: World, after: World, k: Key, f: FailureClass)
    requires Exclusive(w) && k in w.tasks && FailNotice(k, f) in w.notices
    requires after.tasks.Keys == w.tasks.Keys && !after.tasks[k].state.Running?
    requires forall j :: j in w.tasks && j != k ==> after.tasks[j] == w.tasks[j]
    requires after.runs == w.runs && after.notices == w.notices - multiset{FailNotice(k, f)}
    ensures Exclusive(after)
  {
    assert ExclusiveAt(w, k);
    assert FailNotices(after, k) == FailNotices(w, k) - 1;
    forall j ensures ExclusiveAt(after, j) {
      assert ExclusiveAt(w, j);
      if j != k { assert FailNotices(after, j) == FailNotices(w, j); }
    }
  }

  /** The row of k moves between states, neither of them RUNNING; nothing else changes for runs and notices. */
  lemma ExclusiveMoved(w: World, after: World, k: Key)
    requires Exclusive(w) && k in w.tasks && after.tasks.Keys == w.tasks.Keys
    requires forall j :: j in w.tasks && j != k ==> after.tasks[j] == w.tasks[j]
    requires after.runs == w.runs && after.notices == w.notices
    ensures Exclusive(after) <==> (after.tasks[k].state.Running? <==> w.tasks[k].state.Running?)
  {
    assert ExclusiveAt(w, k);
    forall j | j != k ensures ExclusiveAt(after, j) { assert ExclusiveAt(w, j); }
    assert ExclusiveAt(after, k) <==> (after.tasks[k].state.Running? <==> w.tasks[k].state.Running?);
  }

  lemma ExclusiveSla(w: World, k: Key)
    requires Exclusive(w) && k in w.tasks
    ensures Exclusive(SlaBreach(w, k)) <==> !IsRunning(w, k)
  {
    ExclusiveMoved(w, SlaBreach(w, k), k);
  }

  lemma ExclusiveManualCancel(w: World, k: Key)
    requires Exclusive(w) && k in w.tasks
    ensures Exclusive(ManualCancel(w, k)) <==> !IsRunning(w, k)
  {
    ExclusiveMoved(w, ManualCancel(w, k), k);
  }

  lemma ExclusiveManualRetry(w: World, k: Key)
    requires Exclusive(w) && k in w.tasks
    ensures Exclusive(ManualRetry(w, k))
  {
    ExclusiveMoved(w, ManualRetry(w, k), k);
  }

  lemma ExclusiveOrderCancel(w: World, order: nat)
    requires Exclusive(w)
    ensures Exclusive(OrderCancel(w, order))
  {
    var after := OrderCancel(w, order);
    forall k ensures ExclusiveAt(after, k) {
      assert ExclusiveAt(w, k);
    }
  }

  /** A step keeps one outstanding execution on each RUNNING row, and none elsewhere, if and only if it is calm. */
  lemma ExclusiveStep(w: World, s: Step)
    requires Exclusive(w) && Enabled(w, s)
    ensures Exclusive(Apply(w, s)) <==> Calm(w, s)
  {
    match s
    case SubmitStep(o) =>
      CreateOne(w, Key(Selection, OfOrder(o), None, 1), o);
      ExclusiveCreateAll(w, [Request(Key(Selection, OfOrder(o), None, 1), o)]);
    case RequestStep(k, o) =>
      CreateOne(w, k, o);
      ExclusiveCreateAll(w, [Request(k, o)]);
    case TakeJobStep(k, redeliver) => ExclusiveTakeJob(w, k, redeliver);
    case ProduceStep(k) => ExclusiveProduce(w, k);
    case CompleteStep(k) => ExclusiveComplete(w, k);
    case FailStep(r, f) => ExclusiveFailRun(w, r, f);
    case DeliverDoneStep(k, approve, ack) => ExclusiveDeliverDone(w, k, approve, ack);
    case DeliverFailedStep(k, f, ack) => ExclusiveHandle(w, k, f, ack);
    case SlaStep(k) => ExclusiveSla(w, k);
    case ManualCancelStep(k) => ExclusiveManualCancel(w, k);
    case ManualRetryStep(k) => ExclusiveManualRetry(w, k);
    case OrderCancelStep(o) => ExclusiveOrderCancel(w, o);
    case _ => ExclusiveFrame(w, Apply(w, s));
  }

  ghost predicate CalmRun(w: World, steps: seq<Step>)
    requires ValidRun(w, steps)
    decreases |steps|
  {
    |steps| == 0 || (Calm(w, steps[0]) && CalmRun(Apply(w, steps[0]), steps[1..]))
  }

  /** Over calm runs no task ever has two executions. */
  lemma {:induction false} CalmRunsAreExclusive(w: World, steps: seq<Step>)
    requires Exclusive(w) && ValidRun(w, steps) && CalmRun(w, steps)
    ensures Exclusive(After(w, steps))
    decreases |steps|
  {
    if |steps| > 0 {
      ExclusiveStep(w, steps[0]);
      CalmRunsAreExclusive(Apply(w, steps[0]), steps[1..]);
    }
  }

  // ---------- simultaneous runs ----------

  /** Processors at work on k at this moment. */
  ghost function RunsOf(w: World, k: Key): nat {
    w.runs[Run(k, true)] + w.runs[Run(k, false)]
  }

  /** The step claims k for a new run. */
  predicate StartsRunOf(w: World, s: Step, k: Key) {
    s.TakeJobStep? && s.key == k && k in w.tasks && Waiting(w.tasks[k].state)
  }

  lemma RequestKeepsRuns(w: World, k: Key, order: nat)
    ensures CreateTask(w, k, order).runs == w.runs
  {
  }

  /** Notices, operators and requests start no run. */
  lemma QuietStepKeepsRuns(w: World, s: Step)
    requires Enabled(w, s)
    requires !s.TakeJobStep? && !s.ProduceStep? && !s.CompleteStep? && !s.FailStep?
    ensures Apply(w, s).runs == w.runs
  {
    if s.SubmitStep? {
      RequestKeepsRuns(w, Key(Selection, OfOrder(s.order), None, 1), s.order);
    } else if s.RequestStep? {
      RequestKeepsRuns(w, s.key, s.order);
    } else if s.DeliverDoneStep? {
      R.OnTaskDoneKeeps(Drop(w, DoneNotice(s.key), s.ack), s.key, s.approve);
    } else {
      R.OtherStepQuiet(w, s);
    }
  }

  lemma TakeJobRuns(w: World, s: Step, k: Key)
    requires Enabled(w, s) && s.TakeJobStep?
    ensures RunsOf(Apply(w, s), k) == RunsOf(w, k) + if StartsRunOf(w, s, k) then 1 else 0
  {
    if s.key in w.tasks && Waiting(w.tasks[s.key].state) {
      var _ := StartRunEffect(if s.redeliver then w else w.(jobs := w.jobs - multiset{s.key}), s.key);
    }
  }

  /** A run begins with a claim and in no other way. */
  lemma RunBeginsWithClaim(w: World, s: Step, k: Key)
    requires Enabled(w, s)
    ensures StartsRunOf(w, s, k) ==> RunsOf(Apply(w, s), k) == RunsOf(w, k) + 1
    ensures !StartsRunOf(w, s, k) ==> RunsOf(Apply(w, s), k) <= RunsOf(w, k)
  {
    if s.TakeJobStep? {
      TakeJobRuns(w, s, k);
    } else if s.ProduceStep? {
      ProduceRuns(w, s.key, k);
    } else if s.CompleteStep? || s.FailStep? {
      EndedRuns(w, s, k);
    } else {
      QuietStepKeepsRuns(w, s);
    }
  }

  lemma ProduceRuns(w: World, j: Key, k: Key)
    requires Run(j, false) in w.runs
    ensures RunsOf(Produce(w, j), k) == RunsOf(w, k)
  {
  }

  lemma EndedRuns(w: World, s: Step, k: Key)
    requires Enabled(w, s) && (s.CompleteStep? || s.FailStep?)
    ensures RunsOf(Apply(w, s), k) <= RunsOf(w, k)
  {
    assert Apply(w, s).runs <= w.runs;
  }

  ghost predicate AtMostOneRun(w: World) {
    forall k :: RunsOf(w, k) <= 1
  }

  /**
   * A task gets a second simultaneous run exactly when a waiting row is claimed whose earlier run
   * is still at work: the claim looks at the row only.
   */
  lemma SecondRunIff(w: World, s: Step)
    requires AtMostOneRun(w) && Enabled(w, s)
    ensures AtMostOneRun(Apply(w, s)) <==> !(exists k :: StartsRunOf(w, s, k) && RunsOf(w, k) == 1)
  {
    forall k
      ensures StartsRunOf(w, s, k) ==> RunsOf(Apply(w, s), k) == RunsOf(w, k) + 1
      ensures !StartsRunOf(w, s, k) ==> RunsOf(Apply(w, s), k) <= RunsOf(w, k)
    {
      RunBeginsWithClaim(w, s, k);
    }
    if k :| StartsRunOf(w, s, k) && RunsOf(w, k) == 1 {
      assert RunsOf(Apply(w, s), k) == 2;
    }
  }
}
