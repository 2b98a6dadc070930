/**
 * The task lifecycle as a transition system.
 *
 * A World holds the tables and queues the services share.  Each service method is one
 * function from World to World; a worker's claim, its scene write, its completion and its
 * failure are separate steps, and steps interleave in any order.
 */
module Lifecycle {
  import opened Wrappers
  import opened TaskStates

  datatype Kind = Selection | Blueprint | GenerateImage | GenerateVideo | Render | Qc | Publish

  datatype Target = OfOrder(order: nat) | OfContent(content: nat)

  /** The idempotency key. The column is unique, so the key stands for the row's identity. */
  datatype Key = Key(kind: Kind, target: Target, scene: Option<nat>, attempt: nat)

  datatype TaskRow = TaskRow(order: nat, state: TaskState, retryCount: nat, maxRetry: nat, deferrals: nat)

  datatype FailureClass =
    | Deferred | PolicyViolation | BudgetExceeded | InvalidInput
    | BackendUnavailable | Transient | RetryExhausted

  datatype Notice = DoneNotice(key: Key) | FailNotice(key: Key, failure: FailureClass)

  datatype Reason =
    | Created | Revived | Claimed | Completed | Handled
    | SlaBreached | ManuallyRetried | Requeued | ManuallyCancelled

  /** A row of the task event log. */
  datatype Event = Event(key: Key, from: Option<TaskState>, to: TaskState, reason: Reason)

  datatype BlueprintRow = BlueprintRow(order: nat, video: bool, planLength: nat)

  datatype Verdict = Pass | Fail | Blocked
  datatype RetryTarget = Identity | Quality | Brand | AiRisk | NoTarget
  datatype QcResult = QcResult(verdict: Verdict, retryTarget: RetryTarget)

  /** Row ids of contents, scenes and blueprints are positions in their append-only tables. */
  datatype ContentRow = ContentRow(blueprint: nat, order: nat, video: bool, qcResults: seq<QcResult>)

  datatype SceneStatus = Pending | Generating | SceneDone | SceneFailed
  datatype SceneRow = SceneRow(content: nat, number: nat, status: SceneStatus)

  /** A processor run in progress; `produced` says its scene has been written (or needs no writing). */
  datatype Run = Run(key: Key, produced: bool)

  datatype World = World(
    tasks: map<Key, TaskRow>,
    jobs: multiset<Key>,
    runs: multiset<Run>,
    notices: multiset<Notice>,
    events: seq<Event>,
    blueprints: seq<BlueprintRow>,
    contents: seq<ContentRow>,
    scenes: seq<SceneRow>,
    maxQcAttempts: nat
  )

  const MAX_DEFERRALS: nat := 24

  function SpecMaxRetry(kind: Kind): nat {
    match kind
    case Selection => 2
    case Blueprint => 2
    case GenerateImage => 3
    case GenerateVideo => 3
    case Render => 2
    case Qc => 2
    case Publish => 3
  }

  // ---------- TaskFactory ----------

  function Record(w: World, k: Key, from: Option<TaskState>, to: TaskState, reason: Reason): World {
    w.(events := w.events + [Event(k, from, to, reason)])
  }

  function Enqueue(w: World, k: Key): World {
    w.(jobs := w.jobs + multiset{k})
  }

  function NewRow(k: Key, order: nat): TaskRow {
    TaskRow(order, Queued, if k.attempt == 0 then 0 else k.attempt - 1, SpecMaxRetry(k.kind), 0)
  }

  /** Reuse a finished or live task, revive a dead one, or insert a new one. */
  function CreateTask(w: World, k: Key, order: nat): World {
    if k in w.tasks then
      var t := w.tasks[k];
      if Dead(t.state) then
        Enqueue(Record(w.(tasks := w.tasks[k := t.(state := Queued)]), k, Some(t.state), Queued, Revived), k)
      else
        w
    else
      Enqueue(Record(w.(tasks := w.tasks[k := NewRow(k, order)]), k, None, Queued, Created), k)
  }

  /** A successful `transition`. */
  function MoveTo(w: World, k: Key, to: TaskState, reason: Reason): World
    requires k in w.tasks
  {
    var t := w.tasks[k];
    Record(w.(tasks := w.tasks[k := t.(state := to)]), k, Some(t.state), to, reason)
  }

  // ---------- Worker ----------

  predicate RunsScene(w: World, k: Key) {
    k.kind.GenerateVideo? && k.scene.Some? && k.scene.value < |w.scenes|
  }

  function SetScene(w: World, s: nat, status: SceneStatus): World
    requires s < |w.scenes|
  {
    w.(scenes := w.scenes[s := w.scenes[s].(status := status)])
  }

  /** Claim won: the row turns RUNNING and the processor starts. A finished scene is not made again. */
  function StartRun(w: World, k: Key): World
    requires k in w.tasks
  {
    var claimed := w.(tasks := w.tasks[k := w.tasks[k].(state := Running)]);
    var logged := Record(claimed, k, Some(Queued), Running, Claimed);
    if RunsScene(w, k) && !w.scenes[k.scene.value].status.SceneDone? then
      SetScene(logged, k.scene.value, Generating).(runs := w.runs + multiset{Run(k, false)})
    else
      logged.(runs := w.runs + multiset{Run(k, true)})
  }

  /** A worker takes a job; only a waiting task is claimed, any other job is skipped. */
  function TakeJob(w: World, k: Key, redeliver: bool): World {
    var w' := if redeliver then w else w.(jobs := w.jobs - multiset{k});
    if k in w.tasks && Waiting(w.tasks[k].state) then StartRun(w', k) else w'
  }

  /** The video processor writes its scene. */
  function Produce(w: World, k: Key): World {
    var w' := w.(runs := w.runs - multiset{Run(k, false)} + multiset{Run(k, true)});
    if RunsScene(w, k) then SetScene(w', k.scene.value, SceneDone) else w'
  }

  /** The processor returned: DONE is written whatever the row's state is now. */
  function Complete(w: World, k: Key): World
    requires k in w.tasks
  {
    var w' := w.(
      tasks := w.tasks[k := w.tasks[k].(state := Done)],
      runs := w.runs - multiset{Run(k, true)},
      notices := w.notices + multiset{DoneNotice(k)});
    Record(w', k, Some(Running), Done, Completed)
  }

  /** The processor threw. */
  function FailRun(w: World, r: Run, failure: FailureClass): World {
    w.(runs := w.runs - multiset{r}, notices := w.notices + multiset{FailNotice(r.key, failure)})
  }

  // ---------- FailureHandler ----------

  /** `markContentFailed`, as far as scenes go. Publishing failures leave the artifact alone. */
  function MarkFailed(w: World, k: Key): World {
    if !k.kind.Publish? && k.scene.Some? && k.scene.value < |w.scenes|
    then SetScene(w, k.scene.value, SceneFailed)
    else w
  }

  /** Requeue, or nothing when the transition is refused (the handler throws). */
  function Requeue(w: World, k: Key, to: TaskState): World
    requires k in w.tasks
  {
    if CanTransition(w.tasks[k].state, to) then Enqueue(MoveTo(w, k, to, Handled), k) else w
  }

  /** A final failure that also marks the scene, or nothing when the transition is refused. */
  function GiveUp(w: World, k: Key, to: TaskState, mark: bool): World
    requires k in w.tasks
  {
    if CanTransition(w.tasks[k].state, to) then
      var moved := MoveTo(w, k, to, Handled);
      if mark then MarkFailed(moved, k) else moved
    else w
  }

  /** Carry a publish over to the next slot. The counter is saved first, so it stays even when the transition throws. */
  function Defer(w: World, k: Key): World
    requires k in w.tasks
  {
    var t := w.tasks[k];
    if t.deferrals + 1 > MAX_DEFERRALS then GiveUp(w, k, Escalated, false)
    else Requeue(w.(tasks := w.tasks[k := t.(deferrals := t.deferrals + 1)]), k, Retry)
  }

  /** Spend one retry, again saved before the transition, or escalate. */
  function RetryOrEscalate(w: World, k: Key, to: TaskState): World
    requires k in w.tasks
  {
    var t := w.tasks[k];
    if t.retryCount >= t.maxRetry then GiveUp(w, k, Escalated, true)
    else Requeue(w.(tasks := w.tasks[k := t.(retryCount := t.retryCount + 1)]), k, to)
  }

  function Handle(w: World, k: Key, failure: FailureClass): World {
    if k !in w.tasks then w
    else if failure.Deferred? then Defer(w, k)
    else if failure.PolicyViolation? then GiveUp(w, k, Failed, false)
    else if failure.BudgetExceeded? then GiveUp(w, k, Escalated, true)
    else if failure.InvalidInput? then GiveUp(w, k, Failed, true)
    else RetryOrEscalate(w, k, if failure.BackendUnavailable? then Fallback else Retry)
  }

  // ---------- Orchestrator ----------

  function FindContent(contents: seq<ContentRow>, b: nat): (r: Option<nat>)
    ensures r.Some? ==> r.value < |contents| && contents[r.value].blueprint == b
    ensures r.None? ==> forall c :: 0 <= c < |contents| ==> contents[c].blueprint != b
  {
    if |contents| == 0 then None
    else
      var r := FindContent(contents[..|contents| - 1], b);
      if r.Some? then r else if contents[|contents| - 1].blueprint == b then Some(|contents| - 1) else None
  }

  function FindScene(scenes: seq<SceneRow>, c: nat, number: nat): (r: Option<nat>)
    ensures r.Some? ==> r.value < |scenes| && scenes[r.value].content == c && scenes[r.value].number == number
    ensures r.None? ==> forall s :: 0 <= s < |scenes| ==> !(scenes[s].content == c && scenes[s].number == number)
  {
    if |scenes| == 0 then None
    else
      var r := FindScene(scenes[..|scenes| - 1], c, number);
      var last := scenes[|scenes| - 1];
      if r.Some? then r else if last.content == c && last.number == number then Some(|scenes| - 1) else None
  }

  /** Scenes 1..upTo of content c, appending those that are missing. */
  function Materialize(scenes: seq<SceneRow>, c: nat, upTo: nat): seq<SceneRow> {
    if upTo == 0 then scenes
    else
      var before := Materialize(scenes, c, upTo - 1);
      if FindScene(before, c, upTo).Some? then before else before + [SceneRow(c, upTo, Pending)]
  }

  function VideoKey(c: nat, s: nat, attempt: nat): Key { Key(GenerateVideo, OfContent(c), Some(s), attempt) }
  function ImageKey(c: nat, attempt: nat): Key { Key(GenerateImage, OfContent(c), None, attempt) }
  function RenderKey(c: nat, attempt: nat): Key { Key(Render, OfContent(c), None, attempt) }
  function QcKey(c: nat, attempt: nat): Key { Key(Qc, OfContent(c), None, attempt) }
  function PublishKey(c: nat): Key { Key(Publish, OfContent(c), None, 1) }

  /** One generation task for each of the first `upTo` scene rows that belongs to content c. */
  function CreateSceneTasks(w: World, c: nat, order: nat, attempt: nat, upTo: nat): (r: World)
    requires upTo <= |w.scenes|
    ensures r.blueprints == w.blueprints && r.contents == w.contents && r.scenes == w.scenes
    decreases upTo
  {
    if upTo == 0 then w
    else
      var before := CreateSceneTasks(w, c, order, attempt, upTo - 1);
      if w.scenes[upTo - 1].content == c then CreateTask(before, VideoKey(c, upTo - 1, attempt), order) else before
  }

  /** The content row of blueprint b, inserted when it is missing. */
  function WithContent(w: World, b: nat): (World, nat)
    requires b < |w.blueprints|
  {
    match FindContent(w.contents, b)
    case Some(c) => (w, c)
    case None =>
      var bp := w.blueprints[b];
      (w.(contents := w.contents + [ContentRow(b, bp.order, bp.video, [])]), |w.contents|)
  }

  function FanOutOne(w: World, b: nat): World
    requires b < |w.blueprints|
  {
    var bp := w.blueprints[b];
    var (w1, c) := WithContent(w, b);
    if bp.video then
      var w2 := w1.(scenes := Materialize(w1.scenes, c, bp.planLength));
      CreateSceneTasks(w2, c, bp.order, 1, |w2.scenes|)
    else
      CreateTask(w1, ImageKey(c, 1), bp.order)
  }

  /** Fan-out of the first `upTo` blueprint rows that belong to the order. */
  function FanOut(w: World, order: nat, upTo: nat): (r: World)
    requires upTo <= |w.blueprints|
    ensures r.blueprints == w.blueprints
    decreases upTo
  {
    if upTo == 0 then w
    else
      var before := FanOut(w, order, upTo - 1);
      if w.blueprints[upTo - 1].order == order then FanOutOne(before, upTo - 1) else before
  }

  predicate AllScenesDone(scenes: seq<SceneRow>, c: nat) {
    (exists s :: 0 <= s < |scenes| && scenes[s].content == c) &&
    forall s :: 0 <= s < |scenes| && scenes[s].content == c ==> scenes[s].status.SceneDone?
  }

  function ReopenScenes(scenes: seq<SceneRow>, c: nat): (r: seq<SceneRow>)
    ensures |r| == |scenes|
    ensures forall s :: 0 <= s < |r| ==>
        r[s] == if scenes[s].content == c then scenes[s].(status := Pending) else scenes[s]
  {
    seq(|scenes|, s requires 0 <= s < |scenes| =>
      if scenes[s].content == c then scenes[s].(status := Pending) else scenes[s])
  }

  function ModuleForRetryTarget(target: RetryTarget, video: bool): Kind {
    match target
    case Brand => if video then Render else GenerateImage
    case AiRisk => if video then Render else GenerateImage
    case _ => if video then GenerateVideo else GenerateImage
  }

  /** One more attempt at what failed: the scenes again, or one task of the kind. */
  function Regenerated(w: World, kind: Kind, c: nat, order: nat, attempt: nat): World {
    if kind.GenerateVideo? then
      CreateSceneTasks(w.(scenes := ReopenScenes(w.scenes, c)), c, order, attempt, |w.scenes|)
    else
      CreateTask(w, Key(kind, OfContent(c), None, attempt), order)
  }

  /** A failed check: one more attempt while attempts are left. */
  function RetryOrStop(w: World, c: nat, order: nat, target: RetryTarget, attempts: nat): World
    requires c < |w.contents|
  {
    if attempts >= w.maxQcAttempts then w
    else Regenerated(w, ModuleForRetryTarget(target, w.contents[c].video), c, order, attempts + 1)
  }

  /** QC verdict: publish, regenerate the weakest module, or stop. */
  function HandleQc(w: World, k: Key, order: nat, approve: bool): World
    requires k.target.OfContent? && k.target.content < |w.contents|
  {
    var c := k.target.content;
    var results := w.contents[c].qcResults;
    if |results| == 0 then w
    else
      var last := results[|results| - 1];
      match last.verdict
      case Blocked => w
      case Pass => if approve then CreateTask(w, PublishKey(c), order) else w
      case Fail => RetryOrStop(w, c, order, last.retryTarget, |results|)
  }

  /** The follow-up of a completed task. */
  function OnTaskDone(w: World, k: Key, approve: bool): World {
    if k !in w.tasks then w else
    var order := w.tasks[k].order;
    if k.kind.Selection? then CreateTask(w, Key(Blueprint, OfOrder(order), None, 1), order)
    else if k.kind.Blueprint? then FanOut(w, order, |w.blueprints|)
    else if k.kind.Publish? || k.target.OfOrder? || k.target.content >= |w.contents| then w
    else
      var c := k.target.content;
      if k.kind.GenerateVideo? then
        if AllScenesDone(w.scenes, c) then CreateTask(w, RenderKey(c, 1), order) else w
      else if k.kind.Qc? then HandleQc(w, k, order, approve)
      else CreateTask(w, QcKey(c, |w.contents[c].qcResults| + 1), order)
  }

  // ---------- Operators, SLA monitor ----------

  /** An operator's retry: through RUNNING and straight back to QUEUED. */
  function ManualRetry(w: World, k: Key): World
    requires k in w.tasks
  {
    var t := w.tasks[k];
    if t.state.Escalated? || t.state.Failed? || t.state.Retry? || t.state.Fallback? then
      var bumped := w.(tasks := w.tasks[k := t.(retryCount := t.retryCount + 1)]);
      Enqueue(MoveTo(MoveTo(bumped, k, Running, ManuallyRetried), k, Queued, Requeued), k)
    else w
  }

  function ManualCancel(w: World, k: Key): World
    requires k in w.tasks
  {
    if CanTransition(w.tasks[k].state, Cancelled) then MoveTo(w, k, Cancelled, ManuallyCancelled) else w
  }

  /** Cancelling an order cancels its waiting tasks in bulk, without event rows. */
  function OrderCancel(w: World, order: nat): World {
    w.(tasks := map k | k in w.tasks ::
         if w.tasks[k].order == order && Waiting(w.tasks[k].state) then w.tasks[k].(state := Cancelled) else w.tasks[k])
  }

  /** The SLA scan looks at QUEUED and RUNNING rows, but the table refuses QUEUED to ESCALATED. */
  function SlaBreach(w: World, k: Key): World
    requires k in w.tasks
  {
    var t := w.tasks[k];
    if (t.state.Queued? || t.state.Running?) && CanTransition(t.state, Escalated)
    then MoveTo(w, k, Escalated, SlaBreached)
    else w
  }

  /** An operator's approval asks for the publish task unless the content is posted already. */
  function Approve(w: World, c: nat, order: nat, posted: bool): World {
    if posted then w else CreateTask(w, PublishKey(c), order)
  }

  /** An operator's regeneration: one named scene is reopened, and one task requested for it or for the content. */
  function RegenerateByHand(w: World, c: nat, target: RetryTarget, scene: Option<nat>): World
    requires c < |w.contents|
  {
    var row := w.contents[c];
    if scene.Some? && !(scene.value < |w.scenes| && w.scenes[scene.value].content == c) then w
    else
      var reopened := if scene.Some? then SetScene(w, scene.value, Pending) else w;
      var k := Key(ModuleForRetryTarget(target, row.video), OfContent(c), scene, |row.qcResults| + 1);
      CreateTask(reopened, k, row.order)
  }

  // ---------- Steps and runs ----------

  // Any request for a task may come at any time (RequestStep), and any scene may be reopened
  // (ReopenStep); operator approval and regeneration are made of these two.

  datatype Step =
    | SubmitStep(order: nat)
    | RequestStep(key: Key, order: nat)
    | ReopenStep(scene: nat)
    | BlueprintStep(row: BlueprintRow)
    | TakeJobStep(key: Key, redeliver: bool)
    | ProduceStep(key: Key)
    | QcStep(key: Key, result: QcResult)
    | CompleteStep(key: Key)
    | FailStep(run: Run, failure: FailureClass)
    | DeliverDoneStep(key: Key, approve: bool, ack: bool)
    | DeliverFailedStep(key: Key, failure: FailureClass, ack: bool)
    | SlaStep(key: Key)
    | ManualRetryStep(key: Key)
    | ManualCancelStep(key: Key)
    | OrderCancelStep(order: nat)

  predicate Enabled(w: World, s: Step) {
    match s
    case SubmitStep(_) => true
    case RequestStep(k, _) => k.attempt >= 1
    case ReopenStep(s) => s < |w.scenes|
    case BlueprintStep(row) => true
    case TakeJobStep(k, _) => k in w.jobs
    case ProduceStep(k) => Run(k, false) in w.runs
    case QcStep(k, _) => k.kind.Qc? && Run(k, true) in w.runs && k.target.OfContent? && k.target.content < |w.contents|
    case CompleteStep(k) => Run(k, true) in w.runs && k in w.tasks
    case FailStep(r, _) => r in w.runs
    case DeliverDoneStep(k, _, _) => DoneNotice(k) in w.notices
    case DeliverFailedStep(k, f, _) => FailNotice(k, f) in w.notices
    case SlaStep(k) => k in w.tasks
    case ManualRetryStep(k) => k in w.tasks
    case ManualCancelStep(k) => k in w.tasks
    case OrderCancelStep(_) => true
  }

  function Drop(w: World, n: Notice, ack: bool): World {
    if ack then w.(notices := w.notices - multiset{n}) else w
  }

  function RecordQc(w: World, c: nat, result: QcResult): World
    requires c < |w.contents|
  {
    w.(contents := w.contents[c := w.contents[c].(qcResults := w.contents[c].qcResults + [result])])
  }

  function Apply(w: World, s: Step): World
    requires Enabled(w, s)
  {
    match s
    case SubmitStep(o) => CreateTask(w, Key(Selection, OfOrder(o), None, 1), o)
    case RequestStep(k, o) => CreateTask(w, k, o)
    case ReopenStep(s) => SetScene(w, s, Pending)
    case BlueprintStep(row) => w.(blueprints := w.blueprints + [row])
    case TakeJobStep(k, redeliver) => TakeJob(w, k, redeliver)
    case ProduceStep(k) => Produce(w, k)
    case QcStep(k, result) => RecordQc(w, k.target.content, result)
    case CompleteStep(k) => Complete(w, k)
    case FailStep(r, f) => FailRun(w, r, f)
    case DeliverDoneStep(k, approve, ack) => OnTaskDone(Drop(w, DoneNotice(k), ack), k, approve)
    case DeliverFailedStep(k, f, ack) => Handle(Drop(w, FailNotice(k, f), ack), k, f)
    case SlaStep(k) => SlaBreach(w, k)
    case ManualRetryStep(k) => ManualRetry(w, k)
    case ManualCancelStep(k) => ManualCancel(w, k)
    case OrderCancelStep(o) => OrderCancel(w, o)
  }

  ghost predicate ValidRun(w: World, steps: seq<Step>)
    decreases |steps|
  {
    |steps| == 0 || (Enabled(w, steps[0]) && ValidRun(Apply(w, steps[0]), steps[1..]))
  }

  ghost function After(w: World, steps: seq<Step>): World
    requires ValidRun(w, steps)
    decreases |steps|
  {
    if |steps| == 0 then w else After(Apply(w, steps[0]), steps[1..])
  }

  /** Operator regeneration, in steps. */
  lemma RegenerationIsSteps(w: World, c: nat, target: RetryTarget, scene: Option<nat>) returns (steps: seq<Step>)
    requires c < |w.contents|
    ensures ValidRun(w, steps) && After(w, steps) == RegenerateByHand(w, c, target, scene)
  {
    var row := w.contents[c];
    var k := Key(ModuleForRetryTarget(target, row.video), OfContent(c), scene, |row.qcResults| + 1);
    var request := RequestStep(k, row.order);
    if scene.None? {
      steps := [request];
      OneStep(w, request);
    } else if scene.value < |w.scenes| && w.scenes[scene.value].content == c {
      var reopen := ReopenStep(scene.value);
      steps := [reopen, request];
      assert steps[1..] == [request];
      OneStep(Apply(w, reopen), request);
    } else {
      steps := [];
    }
  }

  lemma OneStep(w: World, s: Step)
    requires Enabled(w, s)
    ensures ValidRun(w, [s]) && After(w, [s]) == Apply(w, s)
  {
    assert [s][1..] == [];
  }

  /** One step more. */
  lemma ThenStep(w: World, before: seq<Step>, mid: World, s: Step, after: World) returns (steps: seq<Step>)
    requires ValidRun(w, before) && mid == After(w, before) && Enabled(mid, s) && after == Apply(mid, s)
    ensures ValidRun(w, steps) && After(w, steps) == after && steps == before + [s]
  {
    OneStep(mid, s);
    Joined(w, before, mid, [s]);
    steps := before + [s];
  }

  /** Two runs in a row are a run. */
  lemma {:induction false} Joined(w: World, a: seq<Step>, mid: World, b: seq<Step>)
    requires ValidRun(w, a) && mid == After(w, a) && ValidRun(mid, b)
    ensures ValidRun(w, a + b) && After(w, a + b) == After(mid, b)
    decreases |a|
  {
    if |a| == 0 {
      assert a + b == b;
    } else {
      var whole, next := a + b, Apply(w, a[0]);
      assert whole[0] == a[0] && whole[1..] == a[1..] + b;
      Joined(next, a[1..], mid, b);
      FirstStep(w, whole, next);
    }
  }

  lemma FirstStep(w: World, steps: seq<Step>, next: World)
    requires |steps| > 0 && Enabled(w, steps[0]) && next == Apply(w, steps[0]) && ValidRun(next, steps[1..])
    ensures ValidRun(w, steps) && After(w, steps) == After(next, steps[1..])
  {
  }

  /** Operator approval, in steps. */
  lemma ApprovalIsStep(w: World, c: nat, order: nat)
    ensures Enabled(w, RequestStep(PublishKey(c), order))
    ensures Approve(w, c, order, false) == Apply(w, RequestStep(PublishKey(c), order))
  {
  }

  /** No rows, no jobs, nothing running. */
  function Initial(maxQcAttempts: nat): World {
    World(map[], multiset{}, multiset{}, multiset{}, [], [], [], [], maxQcAttempts)
  }
}
