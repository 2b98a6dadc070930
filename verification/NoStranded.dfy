/**
 * No task is ever stranded: a waiting task has a job, a running one has a processor at work
 * or a failure notice on its way.
 */
module NoStranded {
  import opened Wrappers
  import opened TaskStates
  import opened Lifecycle
  import opened Spawning

  ghost predicate HasRun(w: World, k: Key) {
    Run(k, true) in w.runs || Run(k, false) in w.runs
  }

  ghost predicate HasFailNotice(w: World, k: Key) {
    exists f :: FailNotice(k, f) in w.notices
  }

  ghost predicate LiveAt(w: World, k: Key) {
    k in w.tasks ==>
      (Waiting(w.tasks[k].state) ==> k in w.jobs) &&
      (w.tasks[k].state.Running? ==> HasRun(w, k) || HasFailNotice(w, k))
  }

  ghost predicate Live(w: World) {
    forall k :: k in w.tasks ==> LiveAt(w, k)
  }

  lemma LiveCreate(w: World, k: Key, order: nat)
    requires Live(w)
    ensures Live(CreateTask(w, k, order))
  {
    var after := CreateTask(w, k, order);
    forall j | j in after.tasks ensures LiveAt(after, j) {
      if j in w.tasks {
        assert LiveAt(w, j);
        if HasFailNotice(w, j) {
          var f :| FailNotice(j, f) in w.notices;
          assert FailNotice(j, f) in after.notices;
        }
      }
    }
  }

  lemma LiveCreateAll(w: World, reqs: seq<Request>)
    requires Live(w)
    ensures Live(CreateAll(w, reqs))
  {
    if |reqs| > 0 {
      LiveCreateAll(w, reqs[..|reqs| - 1]);
      LiveCreate(CreateAll(w, reqs[..|reqs| - 1]), reqs[|reqs| - 1].key, reqs[|reqs| - 1].order);
    }
  }

  /** What winning a claim does. The run starts `produced` exactly when there is no scene left to make. */
  lemma StartRunEffect(w: World, k: Key) returns (produced: bool)
    requires k in w.tasks
    ensures var after := StartRun(w, k);
      && produced == !(RunsScene(w, k) && !w.scenes[k.scene.value].status.SceneDone?)
      && after.tasks == w.tasks[k := w.tasks[k].(state := Running)]
      && after.runs == w.runs + multiset{Run(k, produced)} && after.notices == w.notices && after.jobs == w.jobs
      && after.blueprints == w.blueprints && after.contents == w.contents && after.maxQcAttempts == w.maxQcAttempts
      && after.scenes == if produced then w.scenes
                         else w.scenes[k.scene.value := w.scenes[k.scene.value].(status := Generating)]
  {
    produced := !(RunsScene(w, k) && !w.scenes[k.scene.value].status.SceneDone?);
  }

  lemma LiveTakeJob(w: World, k: Key, redeliver: bool)
    requires Live(w)
    ensures Live(TakeJob(w, k, redeliver))
  {
    var w' := if redeliver then w else w.(jobs := w.jobs - multiset{k});
    if k in w.tasks && Waiting(w.tasks[k].state) {
      var produced := StartRunEffect(w', k);
      LiveClaim(w, StartRun(w', k), k, produced);
    } else {
      LiveSkip(w, w', k);
    }
  }

  lemma LiveClaim(w: World, after: World, k: Key, produced: bool)
    requires Live(w) && k in w.tasks && after.tasks == w.tasks[k := w.tasks[k].(state := Running)]
    requires forall j :: j != k && j in w.jobs ==> j in after.jobs
    requires after.runs == w.runs + multiset{Run(k, produced)} && after.notices == w.notices
    ensures Live(after)
  {
    forall j | j in after.tasks ensures LiveAt(after, j) {
      assert LiveAt(w, j);
      assert Run(k, produced) in after.runs;
      if HasFailNotice(w, j) {
        var f :| FailNotice(j, f) in w.notices;
        assert FailNotice(j, f) in after.notices;
      }
    }
  }

  /** A job for a row that is not waiting may be thrown away. */
  lemma LiveSkip(w: World, after: World, k: Key)
    requires Live(w) && (k in w.tasks ==> !Waiting(w.tasks[k].state))
    requires after.tasks == w.tasks && after.runs == w.runs && after.notices == w.notices
    requires forall j :: j != k && j in w.jobs ==> j in after.jobs
    ensures Live(after)
  {
    forall j | j in after.tasks ensures LiveAt(after, j) {
      assert LiveAt(w, j);
      if HasFailNotice(w, j) {
        var f :| FailNotice(j, f) in w.notices;
        assert FailNotice(j, f) in after.notices;
      }
    }
  }

  lemma LiveProduce(w: World, k: Key)
    requires Live(w)
    ensures Live(Produce(w, k))
  {
    var after := Produce(w, k);
    forall k' | k' in after.tasks ensures LiveAt(after, k') {
      assert LiveAt(w, k');
      if HasFailNotice(w, k') { assert HasFailNotice(after, k'); }
    }
  }

  lemma LiveComplete(w: World, k: Key)
    requires Live(w) && k in w.tasks
    ensures Live(Complete(w, k))
  {
    var after := Complete(w, k);
    forall k' | k' in after.tasks ensures LiveAt(after, k') {
      assert LiveAt(w, k');
      if HasFailNotice(w, k') {
        var f :| FailNotice(k', f) in w.notices;
        assert FailNotice(k', f) in after.notices;
      }
    }
  }

  lemma LiveFailRun(w: World, r: Run, f: FailureClass)
    requires Live(w)
    ensures Live(FailRun(w, r, f))
  {
    var after := FailRun(w, r, f);
    forall k | k in after.tasks ensures LiveAt(after, k) {
      assert LiveAt(w, k);
      assert FailNotice(r.key, f) in after.notices;
      if HasFailNotice(w, k) {
        var g :| FailNotice(k, g) in w.notices;
        assert FailNotice(k, g) in after.notices;
      }
    }
  }

  /** What one handled failure may do: touch one row, never leave it RUNNING, never drop a job. */
  ghost predicate HandledWell(w: World, after: World, k: Key)
    requires k in w.tasks
  {
    && after.tasks.Keys == w.tasks.Keys
    && (forall k' :: k' in w.tasks && k' != k ==> after.tasks[k'] == w.tasks[k'])
    && after.tasks[k].order == w.tasks[k].order
    && (after.tasks[k].state.Done? <==> w.tasks[k].state.Done?)
    && after.blueprints == w.blueprints && after.contents == w.contents && after.maxQcAttempts == w.maxQcAttempts
    && (after.scenes == w.scenes || after.scenes == MarkFailed(w, k).scenes)
    && after.runs == w.runs && after.notices == w.notices
    && (after.jobs == w.jobs || after.jobs == w.jobs + multiset{k})
    && !after.tasks[k].state.Running?
    && (Waiting(after.tasks[k].state) ==> k in after.jobs || Waiting(w.tasks[k].state))
  }

  lemma RequeueEffect(w: World, spent: TaskRow, k: Key, to: TaskState, after: World)
    requires k in w.tasks && (to.Retry? || to.Fallback?)
    requires spent.state == w.tasks[k].state && spent.order == w.tasks[k].order
    requires after == Requeue(w.(tasks := w.tasks[k := spent]), k, to)
    ensures HandledWell(w, after, k)
  {
  }

  lemma GiveUpEffect(w: World, k: Key, to: TaskState, mark: bool, after: World)
    requires k in w.tasks && (to.Escalated? || to.Failed?) && after == GiveUp(w, k, to, mark)
    ensures HandledWell(w, after, k)
  {
  }

  lemma DeferEffect(w: World, k: Key, after: World)
    requires k in w.tasks && after == Defer(w, k)
    ensures HandledWell(w, after, k)
  {
    var t := w.tasks[k];
    if t.deferrals + 1 > MAX_DEFERRALS {
      GiveUpEffect(w, k, Escalated, false, after);
    } else {
      RequeueEffect(w, t.(deferrals := t.deferrals + 1), k, Retry, after);
    }
  }

  lemma RetryEffect(w: World, k: Key, to: TaskState, after: World)
    requires k in w.tasks && (to.Retry? || to.Fallback?) && after == RetryOrEscalate(w, k, to)
    ensures HandledWell(w, after, k)
  {
    var t := w.tasks[k];
    if t.retryCount >= t.maxRetry {
      GiveUpEffect(w, k, Escalated, true, after);
    } else {
      RequeueEffect(w, t.(retryCount := t.retryCount + 1), k, to, after);
    }
  }

  /** The handler never leaves its task RUNNING, so its notice may be consumed. */
  lemma HandleEffect(w: World, k: Key, f: FailureClass)
    requires k in w.tasks
    ensures HandledWell(w, Handle(w, k, f), k)
  {
    var after := Handle(w, k, f);
    if f.Deferred? {
      DeferEffect(w, k, after);
    } else if f.PolicyViolation? {
      GiveUpEffect(w, k, Failed, false, after);
    } else if f.BudgetExceeded? {
      GiveUpEffect(w, k, Escalated, true, after);
    } else if f.InvalidInput? {
      GiveUpEffect(w, k, Failed, true, after);
    } else {
      RetryEffect(w, k, if f.BackendUnavailable? then Fallback else Retry, after);
    }
  }

  lemma LiveHandle(w: World, k: Key, f: FailureClass, ack: bool)
    requires Live(w)
    ensures Live(Handle(Drop(w, FailNotice(k, f), ack), k, f))
  {
    var dropped := Drop(w, FailNotice(k, f), ack);
    var after := Handle(dropped, k, f);
    if k in w.tasks { HandleEffect(dropped, k, f); }
    forall k' | k' in after.tasks ensures LiveAt(after, k') {
      assert LiveAt(w, k');
      if k' != k && HasFailNotice(w, k') {
        var g :| FailNotice(k', g) in w.notices;
        assert FailNotice(k', g) in after.notices;
      }
    }
  }

  lemma LiveOperator(w: World, s: Step)
    requires Live(w) && Enabled(w, s)
    requires s.SlaStep? || s.ManualRetryStep? || s.ManualCancelStep? || s.OrderCancelStep?
          || s.BlueprintStep? || s.QcStep? || s.ReopenStep?
    ensures Live(Apply(w, s))
  {
    var after := Apply(w, s);
    forall k | k in after.tasks ensures LiveAt(after, k) {
      assert LiveAt(w, k);
      if HasFailNotice(w, k) { assert HasFailNotice(after, k); }
    }
  }

  /** Task rows, jobs, runs and notices as they were. */
  lemma LiveFrame(w: World, after: World)
    requires Live(w) && after.tasks == w.tasks && after.jobs == w.jobs && after.runs == w.runs
    requires forall k, f :: FailNotice(k, f) in w.notices ==> FailNotice(k, f) in after.notices
    ensures Live(after)
  {
    forall k | k in after.tasks ensures LiveAt(after, k) {
      assert LiveAt(w, k);
      if HasFailNotice(w, k) {
        var f :| FailNotice(k, f) in w.notices;
        assert FailNotice(k, f) in after.notices;
      }
    }
  }

  lemma LiveDeliverDone(w: World, k: Key, approve: bool, ack: bool)
    requires Live(w)
    ensures Live(OnTaskDone(Drop(w, DoneNotice(k), ack), k, approve))
  {
    var dropped := Drop(w, DoneNotice(k), ack);
    var after := OnTaskDone(dropped, k, approve);
    var reqs := OnTaskDoneSpawns(dropped, k, approve);
    LiveFrame(w, TaskSide(dropped));
    LiveCreateAll(TaskSide(dropped), reqs);
    LiveFrame(TaskSide(after), after);
  }

  /** Every step keeps every task live, whatever the interleaving. */
  lemma LiveStep(w: World, s: Step)
    requires Live(w) && Enabled(w, s)
    ensures Live(Apply(w, s))
  {
    match s
    case SubmitStep(o) => LiveCreate(w, Key(Selection, OfOrder(o), None, 1), o);
    case RequestStep(k, o) => LiveCreate(w, k, o);
    case TakeJobStep(k, redeliver) => LiveTakeJob(w, k, redeliver);
    case ProduceStep(k) => LiveProduce(w, k);
    case CompleteStep(k) => LiveComplete(w, k);
    case FailStep(r, f) => LiveFailRun(w, r, f);
    case DeliverFailedStep(k, f, ack) => LiveHandle(w, k, f, ack);
    case DeliverDoneStep(k, approve, ack) => LiveDeliverDone(w, k, approve, ack);
    case _ => LiveOperator(w, s);
  }

  /** Over whole runs: from a live world, every reachable world is live. */
  lemma {:induction false} NoTaskIsStranded(w: World, steps: seq<Step>)
    requires Live(w) && ValidRun(w, steps)
    ensures Live(After(w, steps))
    decreases |steps|
  {
    if |steps| > 0 {
      LiveStep(w, steps[0]);
      NoTaskIsStranded(Apply(w, steps[0]), steps[1..]);
    }
  }

  /** In every reachable world a waiting task has a job, and a running one a run or a failure notice. */
  lemma ReachableIsLive(maxQcAttempts: nat, steps: seq<Step>, k: Key)
    requires ValidRun(Initial(maxQcAttempts), steps)
    ensures LiveAt(After(Initial(maxQcAttempts), steps), k)
  {
    NoTaskIsStranded(Initial(maxQcAttempts), steps);
  }
}
