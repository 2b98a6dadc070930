/**
 * Two runs after which the scene tasks of a video are settled and it has no RENDER task.
 *
 * In the first, the SLA monitor escalates a RUNNING scene task, an operator retries it, and the
 * failure of the first run is handled after the second run has made the scene: the scene is marked
 * FAILED under the second run, which then completes.
 *
 * In the second, an operator asks for the rendering of one scene before the video has been rendered,
 * and quality control of that sends the scene back while its first completion still waits.
 */
module StuckVideo {
  import opened Wrappers
  import opened TaskStates
  import opened Lifecycle
  import opened Rows
  import opened Exclusion
  import opened FanIn

  function Start(): World { Initial(3) }

  /** From the empty world, this run ends in w. */
  ghost predicate Leads(steps: seq<Step>, w: World) {
    ValidRun(Start(), steps) && After(Start(), steps) == w
  }

  /** Nobody asks for a task or reopens a scene by hand. */
  ghost predicate NoRequests(steps: seq<Step>) {
    forall i :: 0 <= i < |steps| ==> !steps[i].RequestStep? && !steps[i].ReopenStep?
  }

  lemma Then(steps: seq<Step>, w: World, s: Step) returns (more: seq<Step>)
    requires Leads(steps, w) && Enabled(w, s)
    ensures Leads(more, Apply(w, s))
    ensures NoRequests(steps) && !s.RequestStep? && !s.ReopenStep? ==> NoRequests(more)
  {
    more := ThenStep(Start(), steps, w, s, Apply(w, s));
  }

  // ---------- up to the fan-out ----------

  const S: Key := Key(Selection, OfOrder(0), None, 1)
  const B: Key := Key(Blueprint, OfOrder(0), None, 1)

  /** The order's one task so far is in this state, with this job, run or notice around it. */
  ghost predicate Preparing(w: World, k: Key, state: TaskState, jobs: multiset<Key>, runs: multiset<Run>,
                            notices: multiset<Notice>) {
    && k in w.tasks && w.tasks[k].state == state && w.tasks[k].order == 0
    && (forall j :: j in w.tasks ==> j.target == OfOrder(0)) && (k == S ==> B !in w.tasks)
    && w.jobs == jobs && w.runs == runs && w.notices == notices
    && w.blueprints == [BlueprintRow(0, true, 1)] && w.contents == [] && w.scenes == [] && w.maxQcAttempts == 3
  }

  /** A task without a scene is taken, executed and its completion waits. */
  lemma Executed(before: seq<Step>, w: World, k: Key) returns (steps: seq<Step>, v: World)
    requires Leads(before, w) && NoRequests(before) && (k == S || k == B)
    requires Preparing(w, k, Queued, multiset{k}, multiset{}, multiset{})
    ensures Leads(steps, v) && NoRequests(steps)
    ensures Preparing(v, k, Done, multiset{}, multiset{}, multiset{DoneNotice(k)})
  {
    steps, v := Started(before, w, k);
    steps := Then(steps, v, CompleteStep(k));
    v := Apply(v, CompleteStep(k));
  }

  lemma Started(before: seq<Step>, w: World, k: Key) returns (steps: seq<Step>, v: World)
    requires Leads(before, w) && NoRequests(before) && (k == S || k == B)
    requires Preparing(w, k, Queued, multiset{k}, multiset{}, multiset{})
    ensures Leads(steps, v) && NoRequests(steps)
    ensures Preparing(v, k, Running, multiset{}, multiset{Run(k, true)}, multiset{})
  {
    steps := Then(before, w, TakeJobStep(k, false));
    v := Apply(w, TakeJobStep(k, false));
  }

  lemma Submitted() returns (steps: seq<Step>, v: World)
    ensures Leads(steps, v) && NoRequests(steps) && Preparing(v, S, Queued, multiset{S}, multiset{}, multiset{})
  {
    v := Apply(Start(), BlueprintStep(BlueprintRow(0, true, 1)));
    steps := Then([], Start(), BlueprintStep(BlueprintRow(0, true, 1)));
    steps := Then(steps, v, SubmitStep(0));
    v := Apply(v, SubmitStep(0));
  }

  lemma Selected(before: seq<Step>, w: World) returns (steps: seq<Step>, v: World)
    requires Leads(before, w) && NoRequests(before)
    requires Preparing(w, S, Done, multiset{}, multiset{}, multiset{DoneNotice(S)})
    ensures Leads(steps, v) && NoRequests(steps) && Preparing(v, B, Queued, multiset{B}, multiset{}, multiset{})
  {
    steps := Then(before, w, DeliverDoneStep(S, false, true));
    v := Apply(w, DeliverDoneStep(S, false, true));
  }

  lemma FannedOutNow(w: World)
    requires Preparing(w, B, Done, multiset{}, multiset{}, multiset{DoneNotice(B)})
    ensures Seen(Apply(w, DeliverDoneStep(B, false, true)), FRESH)
  {
    var v := Drop(w, DoneNotice(B), true);
    assert FanOut(v, 0, 0) == v;
    var (w1, c) := WithContent(v, 0);
    assert FindContent([], 0).None? && c == 0 && w1.contents == [ContentRow(0, 0, true, [])];
    var w2 := w1.(scenes := Materialize(w1.scenes, 0, 1));
    assert Materialize([], 0, 0) == [] && FindScene([], 0, 1).None?;
    assert w2.scenes == [SceneRow(0, 1, Pending)];
    assert CreateSceneTasks(w2, 0, 0, 1, 0) == w2;
    assert CreateSceneTasks(w2, 0, 0, 1, 1) == CreateTask(w2, K, 0);
    assert FanOut(v, 0, 1) == FanOutOne(v, 0) == CreateTask(w2, K, 0);
  }

  /** A run from nothing to a video with one scene, just fanned out. */
  lemma Prelude() returns (steps: seq<Step>, v: World)
    ensures Leads(steps, v) && NoRequests(steps) && Seen(v, FRESH)
  {
    steps, v := Submitted();
    steps, v := Executed(steps, v, S);
    steps, v := Selected(steps, v);
    steps, v := Executed(steps, v, B);
    FannedOutNow(v);
    steps := Then(steps, v, DeliverDoneStep(B, false, true));
    v := Apply(v, DeliverDoneStep(B, false, true));
  }

  // ---------- from there on ----------

  /** The scene task, the rendering of the one scene asked for by hand, and its check. */
  const K: Key := VideoKey(0, 0, 1)
  const R: Key := Key(Render, OfContent(0), Some(0), 1)
  const Q: Key := QcKey(0, 1)

  /** What matters of the world of one video with one scene. */
  datatype View = View(
    scene: SceneStatus,
    k: TaskState,
    r: Option<TaskState>,
    q: Option<TaskState>,
    runs: multiset<Run>,
    notices: multiset<Notice>,
    results: seq<QcResult>)

  const FRESH: View := View(Pending, Queued, None, None, multiset{}, multiset{}, [])

  ghost predicate InState(w: World, k: Key, state: Option<TaskState>) {
    if state.None? then k !in w.tasks else k in w.tasks && w.tasks[k].state == state.value && k in w.jobs
  }

  ghost predicate Seen(w: World, v: View) {
    && InState(w, K, Some(v.k)) && InState(w, R, v.r) && InState(w, Q, v.q) && RenderKey(0, 1) !in w.tasks
    && w.runs == v.runs && w.notices == v.notices && w.maxQcAttempts == 3
    && w.scenes == [SceneRow(0, 1, v.scene)] && w.contents == [ContentRow(0, 0, true, v.results)]
  }

  /** One more step, from a world seen as `from` to one seen as `to`. */
  ghost predicate Shows(w: World, from: View, s: Step, to: View) {
    Seen(w, from) && Enabled(w, s) && Seen(Apply(w, s), to)
  }

  lemma Next(before: seq<Step>, w: World, from: View, s: Step, to: View) returns (steps: seq<Step>, v: World)
    requires Leads(before, w) && Shows(w, from, s, to)
    ensures Leads(steps, v) && Seen(v, to)
    ensures NoRequests(before) && !s.RequestStep? && !s.ReopenStep? ==> NoRequests(steps)
  {
    steps := Then(before, w, s);
    v := Apply(w, s);
  }

  lemma Claimed(w: World, from: View)
    requires Seen(w, from) && from.k.Queued? && !from.scene.SceneDone?
    ensures Shows(w, from, TakeJobStep(K, true),
                  from.(k := Running, scene := Generating, runs := from.runs + multiset{Run(K, false)}))
  {
  }

  lemma SceneMade(w: World, from: View)
    requires Seen(w, from) && Run(K, false) in from.runs
    ensures Shows(w, from, ProduceStep(K),
                  from.(scene := SceneDone, runs := from.runs - multiset{Run(K, false)} + multiset{Run(K, true)}))
  {
  }

  /** A task completes: the scene task, the rendering or the check. */
  lemma Completed(w: World, from: View, k: Key, to: View)
    requires Seen(w, from) && Run(k, true) in from.runs
    requires if k == K then to == from.(k := Done, runs := to.runs, notices := to.notices)
             else if k == R then from.r.Some? && to == from.(r := Some(Done), runs := to.runs, notices := to.notices)
             else k == Q && from.q.Some? && to == from.(q := Some(Done), runs := to.runs, notices := to.notices)
    requires to.runs == from.runs - multiset{Run(k, true)} && to.notices == from.notices + multiset{DoneNotice(k)}
    ensures Shows(w, from, CompleteStep(k), to)
  {
    assert k in w.tasks;
    var after := Complete(w, k);
    assert after.runs == to.runs && after.notices == to.notices;
  }

  // ---------- a failure overtakes a run ----------

  lemma Escalated(w: World, from: View)
    requires Seen(w, from) && from.k.Running?
    ensures Shows(w, from, SlaStep(K), from.(k := TaskState.Escalated))
  {
  }

  lemma Retried(w: World, from: View)
    requires Seen(w, from) && from.k.Escalated?
    ensures Shows(w, from, ManualRetryStep(K), from.(k := Queued))
  {
  }

  /** Two runs at once: the first is escalated and its task retried and claimed again. */
  lemma RunTwice() returns (steps: seq<Step>, w: World)
    ensures Leads(steps, w) && NoRequests(steps)
    ensures Seen(w, FRESH.(k := Running, scene := Generating, runs := multiset{Run(K, false), Run(K, false)}))
  {
    steps, w := Prelude();
    var v := FRESH;
    var to := v.(k := Running, scene := Generating, runs := multiset{Run(K, false)});
    Claimed(w, v);
    steps, w := Next(steps, w, v, TakeJobStep(K, true), to);
    v, to := to, to.(k := TaskState.Escalated);
    Escalated(w, v);
    steps, w := Next(steps, w, v, SlaStep(K), to);
    v, to := to, to.(k := Queued);
    Retried(w, v);
    steps, w := Next(steps, w, v, ManualRetryStep(K), to);
    v, to := to, to.(k := Running, runs := multiset{Run(K, false), Run(K, false)});
    Claimed(w, v);
    steps, w := Next(steps, w, v, TakeJobStep(K, true), to);
  }

  lemma Failing(w: World, from: View)
    requires Seen(w, from) && from.runs == multiset{Run(K, false), Run(K, true)} && from.notices == multiset{}
    ensures Shows(w, from, FailStep(Run(K, false), InvalidInput),
                  from.(runs := multiset{Run(K, true)}, notices := multiset{FailNotice(K, InvalidInput)}))
  {
  }

  lemma HandledLate(w: World, from: View)
    requires Seen(w, from) && from.k.Running? && from.notices == multiset{FailNotice(K, InvalidInput)}
    ensures Shows(w, from, DeliverFailedStep(K, InvalidInput, true),
                  from.(k := Failed, scene := SceneFailed, notices := multiset{}))
  {
  }

  /** The completion of the scene task comes while the scene is not done. */
  lemma ConsumedInVain(w: World, from: View)
    requires Seen(w, from) && from.notices == multiset{DoneNotice(K)} && !from.scene.SceneDone?
    ensures Shows(w, from, DeliverDoneStep(K, false, true), from.(notices := multiset{}))
  {
    assert w.scenes[0].content == 0 && !AllScenesDone(w.scenes, 0);
  }

  /** One run makes the scene, the other fails, and the failure is handled first. */
  lemma Overtake() returns (steps: seq<Step>, w: World)
    ensures Leads(steps, w) && NoRequests(steps) && Seen(w, FRESH.(k := Done, scene := SceneFailed))
  {
    steps, w := RunTwice();
    var v := FRESH.(k := Running, scene := Generating, runs := multiset{Run(K, false), Run(K, false)});
    var to := v.(scene := SceneDone, runs := multiset{Run(K, false), Run(K, true)});
    SceneMade(w, v);
    steps, w := Next(steps, w, v, ProduceStep(K), to);
    v, to := to, to.(runs := multiset{Run(K, true)}, notices := multiset{FailNotice(K, InvalidInput)});
    Failing(w, v);
    steps, w := Next(steps, w, v, FailStep(Run(K, false), InvalidInput), to);
    v, to := to, to.(k := Failed, scene := SceneFailed, notices := multiset{});
    HandledLate(w, v);
    steps, w := Next(steps, w, v, DeliverFailedStep(K, InvalidInput, true), to);
    v, to := to, to.(k := Done, runs := multiset{}, notices := multiset{DoneNotice(K)});
    Completed(w, v, K, to);
    steps, w := Next(steps, w, v, CompleteStep(K), to);
    v, to := to, to.(notices := multiset{});
    ConsumedInVain(w, v);
    steps, w := Next(steps, w, v, DeliverDoneStep(K, false, true), to);
  }

  /** With the scene task DONE, its notice consumed and no RENDER, the run has disturbed the video. */
  lemma StuckMeansDisturbed(steps: seq<Step>, w: World, v: View)
    requires Leads(steps, w) && Seen(w, v) && v.k.Done? && DoneNotice(K) !in v.notices
    ensures ScenesSettled(w, 0) && RenderKey(0, 1) !in w.tasks && !Undisturbed(Start(), steps, 0)
  {
    assert SceneOf(w, 0, 0);
    assert RenderKey(0, 1) !in FirstRenders(w, 0);
    if Undisturbed(Start(), steps, 0) { RenderFollowsScenes(steps, 3, 0); }
  }

  /**
   * From the empty world, a run settles every scene task and never creates RENDER.  Nobody requests
   * or reopens anything in it, so by RenderFollowsInCalmRuns the run is not calm.
   */
  lemma AVideoCanStick() returns (steps: seq<Step>)
    ensures NoRequests(steps) && ValidRun(Start(), steps)
    ensures ScenesSettled(After(Start(), steps), 0) && RenderKey(0, 1) !in After(Start(), steps).tasks
    ensures !Undisturbed(Start(), steps, 0) && !CalmRun(Start(), steps)
  {
    var w;
    steps, w := Overtake();
    StuckMeansDisturbed(steps, w, FRESH.(k := Done, scene := SceneFailed));
    NotCalm(steps);
  }

  lemma NotCalm(steps: seq<Step>)
    requires NoRequests(steps) && ValidRun(Start(), steps) && !Undisturbed(Start(), steps, 0)
    ensures !CalmRun(Start(), steps)
  {
    InitialShape(3);
    assert Exclusive(Start()) && KeysFitAt(Start(), 0);
    AutomaticRunsAreCareful(Start(), steps, 0);
    if CalmRun(Start(), steps) { CalmRunsAreUndisturbed(Start(), steps, 0); }
  }

  // ---------- a check sends scenes back too early ----------

  const SEND_BACK: QcResult := QcResult(Fail, Quality)

  /** `regenerate` for the brand of the one scene: it is reopened, and its rendering asked for. */
  lemma ByHand(w: World, from: View)
    requires Seen(w, from) && from.r.None?
    ensures Shows(w, from, ReopenStep(0), from.(scene := Pending))
    ensures from.scene.Pending? ==> Shows(w, from, RequestStep(R, 0), from.(r := Some(Queued)))
  {
  }

  lemma Taken(w: World, from: View, k: Key, to: View)
    requires Seen(w, from) && to.runs == from.runs + multiset{Run(k, true)}
    requires (k == R && from.r == Some(Queued) && to == from.(r := Some(Running), runs := to.runs))
          || (k == Q && from.q == Some(Queued) && to == from.(q := Some(Running), runs := to.runs))
    ensures Shows(w, from, TakeJobStep(k, true), to)
  {
  }

  lemma CheckAsked(w: World, from: View, to: View)
    requires Seen(w, from) && from.q.None? && from.results == [] && DoneNotice(R) in from.notices
    requires to == from.(q := Some(Queued), notices := from.notices - multiset{DoneNotice(R)})
    requires R in w.tasks
    ensures Shows(w, from, DeliverDoneStep(R, false, true), to)
  {
    var v := Drop(w, DoneNotice(R), true);
    assert OnTaskDone(v, R, false) == CreateTask(v, Q, w.tasks[R].order);
  }

  lemma Judged(w: World, from: View)
    requires Seen(w, from) && from.results == [] && Run(Q, true) in from.runs
    ensures Shows(w, from, QcStep(Q, SEND_BACK), from.(results := [SEND_BACK]))
  {
    assert w.contents[0].qcResults + [SEND_BACK] == [SEND_BACK];
  }

  /** The world of one scene whose only check sent it back. */
  lemma SendsBack(w: World, order: nat)
    requires w.contents == [ContentRow(0, 0, true, [SEND_BACK])] && |w.scenes| == 1 && w.scenes[0].content == 0
    requires w.maxQcAttempts == 3
    ensures var reopened := w.(scenes := [w.scenes[0].(status := Pending)]);
      HandleQc(w, Q, order, false) == CreateTask(reopened, VideoKey(0, 0, 2), order)
  {
    var reopened := w.(scenes := ReopenScenes(w.scenes, 0));
    assert reopened.scenes == [w.scenes[0].(status := Pending)];
    assert CreateSceneTasks(reopened, 0, order, 2, 0) == reopened;
    assert CreateSceneTasks(reopened, 0, order, 2, 1) == CreateTask(reopened, VideoKey(0, 0, 2), order);
  }

  /** Tasks other than those looked at. */
  lemma AddedUnseen(w: World, v: View, k: Key, order: nat)
    requires Seen(w, v) && k != K && k != R && k != Q && k != RenderKey(0, 1)
    ensures Seen(CreateTask(w, k, order), v)
  {
  }

  lemma SceneSentBack(w: World, from: View, to: View)
    requires Seen(w, from) && from.results == [SEND_BACK] && DoneNotice(Q) in from.notices && Q in w.tasks
    requires to == from.(scene := Pending, notices := from.notices - multiset{DoneNotice(Q)})
    ensures Shows(w, from, DeliverDoneStep(Q, false, true), to)
  {
    var v := Drop(w, DoneNotice(Q), true);
    SendsBack(v, w.tasks[Q].order);
    var reopened := v.(scenes := [v.scenes[0].(status := Pending)]);
    assert Seen(reopened, to);
    AddedUnseen(reopened, to, VideoKey(0, 0, 2), w.tasks[Q].order);
    assert OnTaskDone(v, Q, false) == HandleQc(v, Q, w.tasks[Q].order, false);
  }

  /** The rendering of the scene is asked for, and then the scene is made. */
  lemma MadeAfterRequest() returns (steps: seq<Step>, w: World)
    ensures Leads(steps, w)
    ensures Seen(w, FRESH.(k := Done, scene := SceneDone, r := Some(Queued), notices := multiset{DoneNotice(K)}))
  {
    steps, w := Prelude();
    var v := FRESH;
    ByHand(w, v);
    steps, w := Next(steps, w, v, ReopenStep(0), v);
    ByHand(w, v);
    var to := v.(r := Some(Queued));
    steps, w := Next(steps, w, v, RequestStep(R, 0), to);
    v, to := to, to.(k := Running, scene := Generating, runs := multiset{Run(K, false)});
    Claimed(w, v);
    steps, w := Next(steps, w, v, TakeJobStep(K, true), to);
    v, to := to, to.(scene := SceneDone, runs := multiset{Run(K, true)});
    SceneMade(w, v);
    steps, w := Next(steps, w, v, ProduceStep(K), to);
    v, to := to, to.(k := Done, runs := multiset{}, notices := multiset{DoneNotice(K)});
    Completed(w, v, K, to);
    steps, w := Next(steps, w, v, CompleteStep(K), to);
  }

  /** A task without a scene of its own is taken and completed, with the completion of K still waiting. */
  lemma Rendered() returns (steps: seq<Step>, w: World)
    ensures Leads(steps, w)
    ensures Seen(w, FRESH.(k := Done, scene := SceneDone, r := Some(Done), q := Some(Queued),
                           notices := multiset{DoneNotice(K)}))
  {
    steps, w := MadeAfterRequest();
    var v := FRESH.(k := Done, scene := SceneDone, r := Some(Queued), notices := multiset{DoneNotice(K)});
    var to := v.(r := Some(Running), runs := multiset{Run(R, true)});
    Taken(w, v, R, to);
    steps, w := Next(steps, w, v, TakeJobStep(R, true), to);
    v, to := to, to.(r := Some(Done), runs := multiset{}, notices := multiset{DoneNotice(K), DoneNotice(R)});
    Completed(w, v, R, to);
    steps, w := Next(steps, w, v, CompleteStep(R), to);
    v, to := to, to.(q := Some(Queued), notices := multiset{DoneNotice(K)});
    CheckAsked(w, v, to);
    steps, w := Next(steps, w, v, DeliverDoneStep(R, false, true), to);
  }

  lemma Checked() returns (steps: seq<Step>, w: World)
    ensures Leads(steps, w)
    ensures Seen(w, FRESH.(k := Done, scene := SceneDone, r := Some(Done), q := Some(Done), results := [SEND_BACK],
                           notices := multiset{DoneNotice(K), DoneNotice(Q)}))
  {
    steps, w := Rendered();
    var v := FRESH.(k := Done, scene := SceneDone, r := Some(Done), q := Some(Queued),
                    notices := multiset{DoneNotice(K)});
    var to := v.(q := Some(Running), runs := multiset{Run(Q, true)});
    Taken(w, v, Q, to);
    steps, w := Next(steps, w, v, TakeJobStep(Q, true), to);
    v, to := to, to.(results := [SEND_BACK]);
    Judged(w, v);
    steps, w := Next(steps, w, v, QcStep(Q, SEND_BACK), to);
    v, to := to, to.(q := Some(Done), runs := multiset{}, notices := multiset{DoneNotice(K), DoneNotice(Q)});
    Completed(w, v, Q, to);
    steps, w := Next(steps, w, v, CompleteStep(Q), to);
  }

  /**
   * A second such run: the rendering of a scene is asked for by hand before the video has been
   * rendered, and its check sends the made scene back before the completion of the scene task is
   * consumed.  The first-round tasks are settled without RENDER.
   */
  lemma ACheckCanComeTooEarly() returns (steps: seq<Step>)
    ensures ValidRun(Start(), steps)
    ensures ScenesSettled(After(Start(), steps), 0) && RenderKey(0, 1) !in After(Start(), steps).tasks
    ensures !Undisturbed(Start(), steps, 0)
  {
    var w;
    steps, w := Checked();
    var v := FRESH.(k := Done, scene := SceneDone, r := Some(Done), q := Some(Done), results := [SEND_BACK],
                    notices := multiset{DoneNotice(K), DoneNotice(Q)});
    var to := v.(scene := Pending, notices := multiset{DoneNotice(K)});
    SceneSentBack(w, v, to);
    steps, w := Next(steps, w, v, DeliverDoneStep(Q, false, true), to);
    v, to := to, to.(notices := multiset{});
    ConsumedInVain(w, v);
    steps, w := Next(steps, w, v, DeliverDoneStep(K, false, true), to);
    StuckMeansDisturbed(steps, w, to);
  }
}
