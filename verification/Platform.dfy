/**
 * The services themselves: one object holding the shared tables and queues, and the service
 * methods that update them field by field.  Each method is proved against the transition
 * function of module Lifecycle with the same meaning, so every invariant proved there holds of it.
 */
module Platform {
  import opened Wrappers
  import opened TaskStates
  import L = Lifecycle
  import F = Failures
  import U = FollowUps
  import N = NoStranded

  class Store {
    var tasks: map<L.Key, L.TaskRow>
    var jobs: multiset<L.Key>
    var runs: multiset<L.Run>
    var notices: multiset<L.Notice>
    var events: seq<L.Event>
    var blueprints: seq<L.BlueprintRow>
    var contents: seq<L.ContentRow>
    var scenes: seq<L.SceneRow>
    const maxQcAttempts: nat

    ghost function World(): L.World
      reads this
    {
      L.World(tasks, jobs, runs, notices, events, blueprints, contents, scenes, maxQcAttempts)
    }

    constructor (maxQcAttempts: nat)
      ensures World() == L.Initial(maxQcAttempts)
    {
      tasks, jobs, runs, notices := map[], multiset{}, multiset{}, multiset{};
      events, blueprints, contents, scenes := [], [], [], [];
      this.maxQcAttempts := maxQcAttempts;
    }

    // ---------- TaskFactory ----------

    method RecordEvent(k: L.Key, from: Option<TaskState>, to: TaskState, reason: L.Reason)
      modifies this`events
      ensures World() == L.Record(old(World()), k, from, to, reason)
    {
      events := events + [L.Event(k, from, to, reason)];
    }

    method Enqueue(k: L.Key)
      modifies this`jobs
      ensures World() == L.Enqueue(old(World()), k)
    {
      jobs := jobs + multiset{k};
    }

    method CreateTask(k: L.Key, order: nat)
      modifies this`tasks, this`jobs, this`events
      ensures World() == L.CreateTask(old(World()), k, order)
      ensures k in tasks && tasks[k].state !in {Escalated, Failed, Cancelled}
      ensures k !in old(tasks) || old(tasks)[k].state in {Escalated, Failed, Cancelled} ==>
                tasks[k].state == Queued && jobs == old(jobs) + multiset{k} && |events| == |old(events)| + 1
    {
      if k in tasks {
        var existing := tasks[k];
        if existing.state.Done? { return; }
        if existing.state.Queued? || existing.state.Running? || existing.state.Retry? || existing.state.Fallback? {
          return;
        }
        var from := existing.state;
        tasks := tasks[k := existing.(state := Queued)];
        RecordEvent(k, Some(from), Queued, L.Revived);
        Enqueue(k);
        return;
      }
      tasks := tasks[k := L.NewRow(k, order)];
      RecordEvent(k, None, Queued, L.Created);
      Enqueue(k);
    }

    /** False when the transition table refuses; the row is then untouched. */
    method Transition(k: L.Key, to: TaskState, reason: L.Reason) returns (ok: bool)
      requires k in tasks
      modifies this`tasks, this`events
      ensures ok <==> CanTransition(old(tasks[k].state), to)
      ensures World() == if ok then L.MoveTo(old(World()), k, to, reason) else old(World())
    {
      var task := tasks[k];
      if !CanTransition(task.state, to) { return false; }
      var from := task.state;
      tasks := tasks[k := task.(state := to)];
      RecordEvent(k, Some(from), to, reason);
      return true;
    }

    // ---------- WorkerRunner ----------

    /** The conditional UPDATE: a row is claimed only from a waiting state. */
    method Claim(k: L.Key) returns (claimed: bool)
      modifies this`tasks
      ensures claimed <==> k in old(tasks) && Waiting(old(tasks[k].state))
      ensures tasks == if claimed then old(tasks)[k := old(tasks[k]).(state := Running)] else old(tasks)
    {
      if k in tasks && (tasks[k].state.Queued? || tasks[k].state.Retry? || tasks[k].state.Fallback?) {
        tasks := tasks[k := tasks[k].(state := Running)];
        return true;
      }
      return false;
    }

    /** The processor starts: a scene that is not finished yet is now being generated. */
    method StartProcessor(k: L.Key) returns (produced: bool)
      modifies this`runs, this`scenes
      ensures produced <==> !(L.RunsScene(old(World()), k) && !old(scenes)[k.scene.value].status.SceneDone?)
      ensures runs == old(runs) + multiset{L.Run(k, produced)}
      ensures scenes == if produced then old(scenes)
                        else old(scenes)[k.scene.value := old(scenes)[k.scene.value].(status := L.Generating)]
    {
      produced := true;
      if k.kind.GenerateVideo? && k.scene.Some? && k.scene.value < |scenes|
         && !scenes[k.scene.value].status.SceneDone?
      {
        var s := k.scene.value;
        scenes := scenes[s := scenes[s].(status := L.Generating)];
        produced := false;
      }
      runs := runs + multiset{L.Run(k, produced)};
    }

    method TakeJob(k: L.Key, redeliver: bool)
      modifies this
      ensures World() == L.TakeJob(old(World()), k, redeliver)
    {
      if !redeliver { jobs := jobs - multiset{k}; }
      Execute(k);
    }

    /** A job is executed when its claim succeeds. */
    method Execute(k: L.Key)
      modifies this`tasks, this`runs, this`scenes, this`events
      ensures World() == if k in old(tasks) && Waiting(old(tasks[k].state)) then L.StartRun(old(World()), k)
                         else old(World())
    {
      var claimed := Claim(k);
      if claimed {
        RecordEvent(k, Some(Queued), Running, L.Claimed);
        var produced := StartProcessor(k);
      }
    }

    method Produce(k: L.Key)
      modifies this`runs, this`scenes
      ensures World() == L.Produce(old(World()), k)
    {
      runs := runs - multiset{L.Run(k, false)} + multiset{L.Run(k, true)};
      if k.kind.GenerateVideo? && k.scene.Some? && k.scene.value < |scenes| {
        var s := k.scene.value;
        scenes := scenes[s := scenes[s].(status := L.SceneDone)];
      }
    }

    method Complete(k: L.Key)
      requires k in tasks
      modifies this`tasks, this`runs, this`notices, this`events
      ensures World() == L.Complete(old(World()), k)
    {
      tasks := tasks[k := tasks[k].(state := Done)];
      RecordEvent(k, Some(Running), Done, L.Completed);
      runs := runs - multiset{L.Run(k, true)};
      notices := notices + multiset{L.DoneNotice(k)};
    }

    method FailRun(r: L.Run, failure: L.FailureClass)
      modifies this`runs, this`notices
      ensures World() == L.FailRun(old(World()), r, failure)
    {
      runs := runs - multiset{r};
      notices := notices + multiset{L.FailNotice(r.key, failure)};
    }

    // ---------- FailureHandlerService ----------

    method MarkContentFailed(k: L.Key)
      modifies this`scenes
      ensures World() == L.MarkFailed(old(World()), k)
    {
      if k.kind.Publish? { return; }
      if k.scene.Some? && k.scene.value < |scenes| {
        var s := k.scene.value;
        scenes := scenes[s := scenes[s].(status := L.SceneFailed)];
      }
    }

    method Handle(k: L.Key, failure: L.FailureClass)
      modifies this`tasks, this`jobs, this`events, this`scenes
      ensures World() == L.Handle(old(World()), k, failure)
      ensures k in old(tasks) && old(tasks)[k].state == Running ==>
                && k in tasks && tasks[k] == F.Outcome(old(tasks)[k], failure)
                && jobs[k] == old(jobs)[k] + (if F.TriedAgain(old(tasks)[k], failure) then 1 else 0)
    {
      if k in tasks && tasks[k].state == Running { F.FailureOutcome(World(), k, failure); }
      if k !in tasks { return; }
      if failure.Deferred? {
        HandleDeferred(k);
      } else if failure.PolicyViolation? {
        GiveUp(k, Failed, false);
      } else if failure.BudgetExceeded? {
        GiveUp(k, Escalated, true);
      } else if failure.InvalidInput? {
        GiveUp(k, Failed, true);
      } else {
        HandleRetryable(k, if failure.BackendUnavailable? then Fallback else Retry);
      }
    }

    method HandleDeferred(k: L.Key)
      requires k in tasks
      modifies this`tasks, this`jobs, this`events, this`scenes
      ensures World() == L.Defer(old(World()), k)
    {
      var task := tasks[k];
      var deferrals := task.deferrals + 1;
      if deferrals > L.MAX_DEFERRALS {
        GiveUp(k, Escalated, false);
        return;
      }
      tasks := tasks[k := task.(deferrals := deferrals)];
      Requeue(k, Retry);
    }

    method HandleRetryable(k: L.Key, nextState: TaskState)
      requires k in tasks
      modifies this`tasks, this`jobs, this`events, this`scenes
      ensures World() == L.RetryOrEscalate(old(World()), k, nextState)
    {
      var task := tasks[k];
      if task.retryCount >= task.maxRetry {
        GiveUp(k, Escalated, true);
        return;
      }
      var attempt := task.retryCount + 1;
      tasks := tasks[k := task.(retryCount := attempt)];
      Requeue(k, nextState);
    }

    method Requeue(k: L.Key, to: TaskState)
      requires k in tasks
      modifies this`tasks, this`jobs, this`events
      ensures World() == L.Requeue(old(World()), k, to)
    {
      var ok := Transition(k, to, L.Handled);
      if ok { Enqueue(k); }
    }

    method GiveUp(k: L.Key, to: TaskState, mark: bool)
      requires k in tasks
      modifies this`tasks, this`events, this`scenes
      ensures World() == L.GiveUp(old(World()), k, to, mark)
    {
      var ok := Transition(k, to, L.Handled);
      if ok && mark { MarkContentFailed(k); }
    }

    // ---------- OrchestratorService ----------

    method FindContent(b: nat) returns (found: Option<nat>)
      ensures found == L.FindContent(contents, b)
    {
      var c := 0;
      found := None;
      while c < |contents| && found.None?
        invariant 0 <= c <= |contents|
        invariant found == L.FindContent(contents[..c], b)
      {
        assert contents[..c + 1][..c] == contents[..c];
        if contents[c].blueprint == b { found := Some(c); }
        c := c + 1;
      }
      if found.Some? { ContentFoundEarly(contents, b, c); }
      assert contents[..|contents|] == contents;
    }

    method FindScene(c: nat, number: nat) returns (found: Option<nat>)
      ensures found == L.FindScene(scenes, c, number)
    {
      var s := 0;
      found := None;
      while s < |scenes| && found.None?
        invariant 0 <= s <= |scenes|
        invariant found == L.FindScene(scenes[..s], c, number)
      {
        assert scenes[..s + 1][..s] == scenes[..s];
        if scenes[s].content == c && scenes[s].number == number { found := Some(s); }
        s := s + 1;
      }
      if found.Some? { SceneFoundEarly(scenes, c, number, s); }
      assert scenes[..|scenes|] == scenes;
    }

    method MaterializeScenes(c: nat, planLength: nat)
      modifies this`scenes
      ensures World() == old(World()).(scenes := L.Materialize(old(scenes), c, planLength))
    {
      ghost var start := scenes;
      var n := 0;
      while n < planLength
        invariant n <= planLength
        invariant scenes == L.Materialize(start, c, n)
      {
        n := n + 1;
        MaterializeScene(c, n);
        assert scenes == L.Materialize(start, c, n);
      }
      assert n == planLength;
    }

    method MaterializeScene(c: nat, n: nat)
      modifies this`scenes
      ensures scenes == if L.FindScene(old(scenes), c, n).Some? then old(scenes)
                        else old(scenes) + [L.SceneRow(c, n, L.Pending)]
    {
      var existing := FindScene(c, n);
      if existing.None? {
        scenes := scenes + [L.SceneRow(c, n, L.Pending)];
      }
    }

    method CreateSceneTasks(c: nat, order: nat, attempt: nat)
      modifies this`tasks, this`jobs, this`events
      ensures World() == L.CreateSceneTasks(old(World()), c, order, attempt, |scenes|)
    {
      var s := 0;
      while s < |scenes|
        invariant s <= |scenes|
        invariant World() == L.CreateSceneTasks(old(World()), c, order, attempt, s)
      {
        if scenes[s].content == c {
          CreateTask(L.VideoKey(c, s, attempt), order);
        }
        s := s + 1;
      }
    }

    method FanOutOne(b: nat)
      requires b < |blueprints|
      modifies this
      ensures World() == L.FanOutOne(old(World()), b)
    {
      var bp := blueprints[b];
      var found := FindContent(b);
      var c := |contents|;
      if found.Some? {
        c := found.value;
      } else {
        contents := contents + [L.ContentRow(b, bp.order, bp.video, [])];
      }
      assert (World(), c) == L.WithContent(old(World()), b);
      if bp.video {
        MaterializeScenes(c, bp.planLength);
        CreateSceneTasks(c, bp.order, 1);
      } else {
        CreateTask(L.ImageKey(c, 1), bp.order);
      }
    }

    method FanOutContents(order: nat)
      modifies this
      ensures World() == L.FanOut(old(World()), order, |old(blueprints)|)
    {
      var b := 0;
      while b < |blueprints|
        invariant b <= |blueprints| && blueprints == old(blueprints)
        invariant World() == L.FanOut(old(World()), order, b)
      {
        if blueprints[b].order == order { FanOutOne(b); }
        b := b + 1;
      }
    }

    method AllScenesDone(c: nat) returns (all: bool)
      ensures all <==> L.AllScenesDone(scenes, c)
    {
      var any := false;
      var s := 0;
      while s < |scenes|
        invariant s <= |scenes|
        invariant any <==> exists t :: 0 <= t < s && scenes[t].content == c
        invariant forall t :: 0 <= t < s && scenes[t].content == c ==> scenes[t].status.SceneDone?
      {
        if scenes[s].content == c {
          if !scenes[s].status.SceneDone? { return false; }
          any := true;
        }
        s := s + 1;
      }
      return any;
    }

    method HandleQcResult(k: L.Key, order: nat, approve: bool)
      requires k.target.OfContent? && k.target.content < |contents|
      modifies this
      ensures World() == L.HandleQc(old(World()), k, order, approve)
    {
      var c := k.target.content;
      var results := contents[c].qcResults;
      if |results| == 0 { return; }
      var qc := results[|results| - 1];
      if qc.verdict.Blocked? { return; }
      if qc.verdict.Fail? {
        HandleQcFailure(c, order, qc.retryTarget, |results|);
      } else if approve {
        CreateTask(L.PublishKey(c), order);
      }
    }

    method HandleQcFailure(c: nat, order: nat, retryTarget: L.RetryTarget, attempts: nat)
      requires c < |contents|
      modifies this
      ensures World() == L.RetryOrStop(old(World()), c, order, retryTarget, attempts)
    {
      if attempts < maxQcAttempts {
        Regenerate(L.ModuleForRetryTarget(retryTarget, contents[c].video), c, order, attempts + 1);
      }
    }

    method Regenerate(kind: L.Kind, c: nat, order: nat, attempt: nat)
      modifies this
      ensures World() == L.Regenerated(old(World()), kind, c, order, attempt)
    {
      if kind.GenerateVideo? {
        ReopenScenes(c);
        CreateSceneTasks(c, order, attempt);
      } else {
        CreateTask(L.Key(kind, L.OfContent(c), None, attempt), order);
      }
    }

    method ReopenScenes(c: nat)
      modifies this`scenes
      ensures World() == old(World()).(scenes := L.ReopenScenes(old(scenes), c))
    {
      var s := 0;
      while s < |scenes|
        invariant s <= |scenes| == |old(scenes)|
        invariant forall t :: 0 <= t < s ==> scenes[t] == L.ReopenScenes(old(scenes), c)[t]
        invariant forall t :: s <= t < |scenes| ==> scenes[t] == old(scenes)[t]
      {
        if scenes[s].content == c { scenes := scenes[s := scenes[s].(status := L.Pending)]; }
        s := s + 1;
      }
    }

    method OnTaskDone(k: L.Key, approve: bool)
      modifies this
      ensures World() == L.OnTaskDone(old(World()), k, approve)
      ensures N.Live(old(World())) && U.Judged(old(World()), k) ==>
                U.ActsOn(old(World()), World(), k.target.content, approve, U.Latest(old(World()), k))
    {
      ghost var start := World();
      if N.Live(start) && U.Judged(start, k) { U.VerdictDecides(start, k, approve, U.Latest(start, k)); }
      if k !in tasks { return; }
      var order := tasks[k].order;
      if k.kind.Selection? {
        CreateTask(L.Key(L.Blueprint, L.OfOrder(order), None, 1), order);
      } else if k.kind.Blueprint? {
        FanOutContents(order);
      } else if !k.kind.Publish? && k.target.OfContent? && k.target.content < |contents| {
        var c := k.target.content;
        if k.kind.GenerateVideo? {
          var all := AllScenesDone(c);
          if all { CreateTask(L.RenderKey(c, 1), order); }
        } else if k.kind.Qc? {
          HandleQcResult(k, order, approve);
        } else {
          CreateTask(L.QcKey(c, |contents[c].qcResults| + 1), order);
        }
      }
    }

    // ---------- ApprovalService, ContentService ----------

    method Approve(c: nat, order: nat, posted: bool)
      modifies this`tasks, this`jobs, this`events
      ensures World() == L.Approve(old(World()), c, order, posted)
    {
      if !posted { CreateTask(L.PublishKey(c), order); }
    }

    /** Refused when the scene named is not one of the content. */
    method RegenerateByHand(c: nat, target: L.RetryTarget, scene: Option<nat>) returns (ok: bool)
      requires c < |contents|
      modifies this
      ensures ok <==> scene.None? || (scene.value < |old(scenes)| && old(scenes)[scene.value].content == c)
      ensures World() == L.RegenerateByHand(old(World()), c, target, scene)
    {
      var row := contents[c];
      if scene.Some? {
        if scene.value >= |scenes| || scenes[scene.value].content != c { return false; }
        scenes := scenes[scene.value := scenes[scene.value].(status := L.Pending)];
      }
      var kind := L.ModuleForRetryTarget(target, row.video);
      CreateTask(L.Key(kind, L.OfContent(c), scene, |row.qcResults| + 1), row.order);
      return true;
    }

    // ---------- TaskService, OrderService, SlaMonitorService ----------

    method ManualRetry(k: L.Key)
      requires k in tasks
      modifies this`tasks, this`jobs, this`events
      ensures World() == L.ManualRetry(old(World()), k)
    {
      var task := tasks[k];
      if !(task.state.Escalated? || task.state.Failed? || task.state.Retry? || task.state.Fallback?) { return; }
      tasks := tasks[k := task.(retryCount := task.retryCount + 1)];
      ghost var bumped := World();
      var ok := Transition(k, Running, L.ManuallyRetried);
      BackToQueued(k);
      Enqueue(k);
      assert World() == L.Enqueue(L.MoveTo(L.MoveTo(bumped, k, Running, L.ManuallyRetried), k, Queued, L.Requeued), k);
    }

    /** From RUNNING back to QUEUED, past the transition table. */
    method BackToQueued(k: L.Key)
      requires k in tasks && tasks[k].state.Running?
      modifies this`tasks, this`events
      ensures World() == L.MoveTo(old(World()), k, Queued, L.Requeued)
    {
      tasks := tasks[k := tasks[k].(state := Queued)];
      RecordEvent(k, Some(Running), Queued, L.Requeued);
    }

    method ManualCancel(k: L.Key)
      requires k in tasks
      modifies this`tasks, this`events
      ensures World() == L.ManualCancel(old(World()), k)
    {
      var ok := Transition(k, Cancelled, L.ManuallyCancelled);
    }

    method CancelOrder(order: nat)
      modifies this`tasks
      ensures World() == L.OrderCancel(old(World()), order)
    {
      tasks := map k | k in tasks ::
        if tasks[k].order == order && (tasks[k].state.Queued? || tasks[k].state.Retry? || tasks[k].state.Fallback?)
        then tasks[k].(state := Cancelled) else tasks[k];
    }

    method EscalateOverdue(k: L.Key)
      requires k in tasks
      modifies this`tasks, this`events
      ensures tasks.Keys == old(tasks).Keys
      ensures World() == L.SlaBreach(old(World()), k)
    {
      if tasks[k].state.Queued? || tasks[k].state.Running? {
        var ok := Transition(k, Escalated, L.SlaBreached);
      }
    }

    /** One scan over the overdue rows; a refused escalation is only logged. */
    method Scan(overdue: seq<L.Key>)
      requires forall k :: k in overdue ==> k in tasks
      modifies this`tasks, this`events
      ensures tasks.Keys == old(tasks).Keys
      ensures World() == SlaScan(old(World()), overdue)
    {
      var i := 0;
      assert overdue[..0] == [];
      while i < |overdue|
        invariant i <= |overdue| && tasks.Keys == old(tasks).Keys
        invariant World() == SlaScan(old(World()), overdue[..i])
      {
        assert overdue[..i + 1][..i] == overdue[..i];
        EscalateOverdue(overdue[i]);
        i := i + 1;
      }
      assert overdue[..|overdue|] == overdue;
    }
  }

  /** The scan's steps, one after another. */
  ghost function SlaScan(w: L.World, overdue: seq<L.Key>): (r: L.World)
    requires forall k :: k in overdue ==> k in w.tasks
    ensures r.tasks.Keys == w.tasks.Keys
  {
    if |overdue| == 0 then w
    else L.SlaBreach(SlaScan(w, overdue[..|overdue| - 1]), overdue[|overdue| - 1])
  }

  lemma {:induction false} ContentFoundEarly(contents: seq<L.ContentRow>, b: nat, c: nat)
    requires c <= |contents| && L.FindContent(contents[..c], b).Some?
    ensures L.FindContent(contents, b) == L.FindContent(contents[..c], b)
    decreases |contents|
  {
    if c < |contents| {
      var init := contents[..|contents| - 1];
      assert init[..c] == contents[..c];
      ContentFoundEarly(init, b, c);
    } else {
      assert contents[..c] == contents;
    }
  }

  lemma {:induction false} SceneFoundEarly(scenes: seq<L.SceneRow>, c: nat, number: nat, s: nat)
    requires s <= |scenes| && L.FindScene(scenes[..s], c, number).Some?
    ensures L.FindScene(scenes, c, number) == L.FindScene(scenes[..s], c, number)
    decreases |scenes|
  {
    if s < |scenes| {
      var init := scenes[..|scenes| - 1];
      assert init[..s] == scenes[..s];
      SceneFoundEarly(init, c, number, s);
    } else {
      assert scenes[..s] == scenes;
    }
  }

  /** Only RUNNING rows are escalated by a scan: a QUEUED row stays QUEUED. */
  lemma {:induction false} ScanEscalatesOnlyRunning(w: L.World, overdue: seq<L.Key>, k: L.Key)
    requires forall j :: j in overdue ==> j in w.tasks
    requires k in w.tasks
    ensures SlaScan(w, overdue).tasks[k] ==
      if w.tasks[k].state.Running? && k in overdue then w.tasks[k].(state := Escalated) else w.tasks[k]
  {
    if |overdue| > 0 {
      var init := overdue[..|overdue| - 1];
      assert overdue == init + [overdue[|overdue| - 1]];
      ScanEscalatesOnlyRunning(w, init, k);
    }
  }
}
