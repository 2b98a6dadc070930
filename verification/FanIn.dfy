/**
 * Video fan-in: the RENDER task of a video appears only when every scene is done, and it does
 * appear once every scene task is done and its notices are consumed.
 */
module FanIn {
  import opened Wrappers
  import opened TaskStates
  import opened Lifecycle
  import opened Spawning
  import opened NoStranded
  import opened Rows
  import opened Exclusion
  import A = Accounting

  /** Content c is a video whose RENDER task has not been created yet. */
  ghost predicate FirstRound(w: World, c: nat) {
    c < |w.contents| && w.contents[c].video && RenderKey(c, 1) !in w.tasks
  }

  ghost predicate SceneOf(w: World, c: nat, s: nat) {
    s < |w.scenes| && w.scenes[s].content == c
  }

  ghost predicate TaskDone(w: World, k: Key) {
    k in w.tasks && w.tasks[k].state.Done?
  }

  /** The scene task of scene s of content c is DONE, or a run of it has made the scene. */
  ghost predicate Backed(w: World, c: nat, s: nat) {
    SceneOf(w, c, s) && (TaskDone(w, VideoKey(c, s, 1)) || Run(VideoKey(c, s, 1), true) in w.runs)
  }

  /** What a run or a row claims to have produced is there. */
  ghost predicate ScenesBacked(w: World, c: nat) {
    forall s: nat :: Backed(w, c, s) ==> w.scenes[s].status.SceneDone?
  }

  /** A scene task that is unfinished, or whose completion is still to be consumed. */
  ghost predicate Owed(w: World, c: nat, s: nat) {
    SceneOf(w, c, s) && (!TaskDone(w, VideoKey(c, s, 1)) || DoneNotice(VideoKey(c, s, 1)) in w.notices)
  }

  ghost predicate SceneOwed(w: World, c: nat) {
    (exists s: nat :: SceneOf(w, c, s)) ==> exists s: nat :: Owed(w, c, s)
  }

  /** No scene task of content c runs ahead of the content itself. */
  ghost predicate NotAhead(w: World, c: nat) {
    c >= |w.contents| ==> forall s: nat :: VideoKey(c, s, 1) !in w.tasks
  }

  ghost predicate FanInAt(w: World, c: nat) {
    NotAhead(w, c) && (FirstRound(w, c) ==> ScenesBacked(w, c) && SceneOwed(w, c))
  }

  // ---------- what breaks it ----------

  /** Handling this failure marks the scene of k FAILED. */
  predicate MarksScene(w: World, k: Key, f: FailureClass) {
    && k in w.tasks && !k.kind.Publish? && k.scene.Some? && k.scene.value < |w.scenes|
    && (if f.BudgetExceeded? then CanTransition(w.tasks[k].state, Escalated)
        else if f.InvalidInput? then CanTransition(w.tasks[k].state, Failed)
        else !f.Deferred? && !f.PolicyViolation?
             && w.tasks[k].retryCount >= w.tasks[k].maxRetry && CanTransition(w.tasks[k].state, Escalated))
  }

  /** A final failure is handled although the scene it marks has been made, by another run of its task. */
  ghost predicate Overtaken(w: World, s: Step, c: nat) {
    s.DeliverFailedStep? && MarksScene(w, s.key, s.failure) && Backed(w, c, s.key.scene.value)
  }

  /** A made scene is reopened by hand. */
  ghost predicate Reopened(w: World, s: Step, c: nat) {
    s.ReopenStep? && Backed(w, c, s.scene)
  }

  /** The completion of this check sends all scenes of content c back. */
  predicate ChecksOut(w: World, k: Key, c: nat) {
    && k in w.tasks && k.kind.Qc? && k.target == OfContent(c) && c < |w.contents|
    && var results := w.contents[c].qcResults;
      && 0 < |results| < w.maxQcAttempts
      && var last := results[|results| - 1];
        last.verdict.Fail? && ModuleForRetryTarget(last.retryTarget, w.contents[c].video).GenerateVideo?
  }

  /** Quality control sends scenes back, some of them made, before the video was rendered as a whole. */
  ghost predicate SentBack(w: World, s: Step, c: nat) {
    s.DeliverDoneStep? && ChecksOut(w, s.key, c) && exists t: nat :: Backed(w, c, t)
  }

  /** A scene task is asked for by hand before its content is there; `regenerate` looks the content up first. */
  ghost predicate AskedAhead(w: World, s: Step, c: nat) {
    s.RequestStep? && c >= |w.contents| && exists t: nat :: s.key == VideoKey(c, t, 1)
  }

  /** All that can break the fan-in of content c. */
  ghost predicate Disturbs(w: World, s: Step, c: nat) {
    (FirstRound(w, c) && (Overtaken(w, s, c) || Reopened(w, s, c) || SentBack(w, s, c))) || AskedAhead(w, s, c)
  }

  lemma HandleScenes(w: World, k: Key, f: FailureClass)
    ensures Handle(w, k, f).scenes == if MarksScene(w, k, f) then MarkFailed(w, k).scenes else w.scenes
  {
  }

  // ---------- preservation ----------

  /** A scene task that was owed is owed still. */
  ghost predicate StaysOwed(w: World, after: World, c: nat) {
    forall s: nat :: Owed(w, c, s) ==> Owed(after, c, s)
  }

  /** The same rows, no made scene lost and nothing owed forgotten: fan-in is kept. */
  lemma FanInFrame(w: World, after: World, c: nat)
    requires FanInAt(w, c) && SameRows(w, after)
    requires FirstRound(w, c) ==> ScenesBacked(after, c) && StaysOwed(w, after, c)
    ensures FanInAt(after, c)
  {
    if FirstRound(w, c) { OwedOn(w, after, c); }
  }

  lemma OwedOn(w: World, after: World, c: nat)
    requires SceneOwed(w, c) && StaysOwed(w, after, c)
    requires forall s: nat :: SceneOf(after, c, s) ==> SceneOf(w, c, s)
    ensures SceneOwed(after, c)
  {
    if t: nat :| SceneOf(after, c, t) {
      assert SceneOf(w, c, t);
      var s: nat :| Owed(w, c, s);
      assert Owed(after, c, s);
    }
  }

  /** Scenes, DONE rows and produced runs as they were, no completion notice gone. */
  lemma FanInSame(w: World, after: World, c: nat)
    requires FanInAt(w, c) && SameRows(w, after) && after.scenes == w.scenes && after.runs <= w.runs
    requires forall j :: j in w.tasks ==> (TaskDone(after, j) <==> TaskDone(w, j))
    requires forall j :: DoneNotice(j) in w.notices ==> DoneNotice(j) in after.notices
    ensures FanInAt(after, c)
  {
    forall s: nat | Backed(after, c, s) ensures Backed(w, c, s) { }
    FanInFrame(w, after, c);
  }

  lemma FanInStartRun(w: World, k: Key, c: nat)
    requires FanInAt(w, c) && k in w.tasks && Waiting(w.tasks[k].state)
    ensures FanInAt(StartRun(w, k), c)
  {
    var after := StartRun(w, k);
    var produced := StartRunEffect(w, k);
    StartRunKeepsRows(w, k);
    forall s: nat | FirstRound(w, c) && Backed(after, c, s) ensures after.scenes[s].status.SceneDone? {
      assert Backed(w, c, s) || (k == VideoKey(c, s, 1) && RunsScene(w, k));
    }
    FanInFrame(w, after, c);
  }

  lemma FanInTakeJob(w: World, s: Step, c: nat)
    requires FanInAt(w, c) && Enabled(w, s) && s.TakeJobStep?
    ensures FanInAt(Apply(w, s), c) <==> !Disturbs(w, s, c)
  {
    var w' := if s.redeliver then w else w.(jobs := w.jobs - multiset{s.key});
    FanInSame(w, w', c);
    if s.key in w.tasks && Waiting(w.tasks[s.key].state) { FanInStartRun(w', s.key, c); }
  }

  lemma FanInProduce(w: World, k: Key, c: nat)
    requires FanInAt(w, c) && Run(k, false) in w.runs
    ensures FanInAt(Produce(w, k), c)
  {
    var after := Produce(w, k);
    ProduceKeepsRows(w, k);
    forall s: nat | FirstRound(w, c) && Backed(after, c, s) ensures after.scenes[s].status.SceneDone? {
      assert Backed(w, c, s) || k == VideoKey(c, s, 1);
    }
    FanInFrame(w, after, c);
  }

  lemma FanInComplete(w: World, k: Key, c: nat)
    requires FanInAt(w, c) && Run(k, true) in w.runs && k in w.tasks
    ensures FanInAt(Complete(w, k), c)
  {
    var after := Complete(w, k);
    assert DoneNotice(k) in after.notices;
    forall s: nat | FirstRound(w, c) && Backed(after, c, s) ensures after.scenes[s].status.SceneDone? {
      assert Backed(w, c, s);
    }
    FanInFrame(w, after, c);
  }

  // ---------- failures ----------

  /** A final failure that marks no made scene of c. */
  lemma FanInHandle(w: World, k: Key, f: FailureClass, c: nat)
    requires FanInAt(w, c) && k in w.tasks
    requires FirstRound(w, c) && MarksScene(w, k, f) ==> !Backed(w, c, k.scene.value)
    ensures FanInAt(Handle(w, k, f), c)
  {
    var after := Handle(w, k, f);
    HandleEffect(w, k, f);
    HandleScenes(w, k, f);
    HandleKeepsRows(w, k, f);
    forall s: nat | FirstRound(w, c) && Backed(after, c, s) ensures after.scenes[s].status.SceneDone? {
      assert Backed(w, c, s);
    }
    FanInFrame(w, after, c);
  }

  /** A failure that marks a made scene breaks the fan-in of the scene's content. */
  lemma OvertakenBreaks(w: World, k: Key, f: FailureClass, c: nat)
    requires FirstRound(w, c) && MarksScene(w, k, f) && Backed(w, c, k.scene.value)
    ensures !FanInAt(Handle(w, k, f), c)
  {
    HandleEffect(w, k, f);
    HandleScenes(w, k, f);
    HandleKeepsRows(w, k, f);
    assert Backed(Handle(w, k, f), c, k.scene.value);
  }

  lemma FanInDeliverFailed(w: World, s: Step, c: nat)
    requires MessagesFit(w) && FanInAt(w, c) && Enabled(w, s) && s.DeliverFailedStep?
    ensures FanInAt(Apply(w, s), c) <==> !Disturbs(w, s, c)
  {
    var dropped := Drop(w, FailNotice(s.key, s.failure), s.ack);
    FanInSame(w, dropped, c);
    assert MarksScene(dropped, s.key, s.failure) <==> MarksScene(w, s.key, s.failure);
    assert forall t: nat :: Backed(dropped, c, t) <==> Backed(w, c, t);
    if FirstRound(w, c) && Overtaken(w, s, c) {
      OvertakenBreaks(dropped, s.key, s.failure, c);
    } else {
      FanInHandle(dropped, s.key, s.failure, c);
    }
  }

  // ---------- completions ----------

  /** Old contents keep their scenes, new scenes belong to new contents. */
  ghost predicate ScenesGrow(w: World, after: World) {
    && w.contents <= after.contents && w.scenes <= after.scenes
    && forall s: nat :: |w.scenes| <= s < |after.scenes| ==> after.scenes[s].content >= |w.contents|
  }

  lemma FanOutOneScenesGrow(w: World, b: nat)
    requires TablesFit(w) && b < |w.blueprints|
    ensures ScenesGrow(w, FanOutOne(w, b))
  {
    WithContentFits(w, b);
    if w.blueprints[b].video { FanOutOneVideo(w, b); }
  }

  lemma ScenesGrowOn(w: World, before: World, after: World)
    requires ScenesGrow(w, before) && ScenesGrow(before, after)
    ensures ScenesGrow(w, after)
  {
  }

  lemma FanOutScenesNext(w: World, order: nat, n: nat)
    requires n < |w.blueprints| && TablesFit(FanOut(w, order, n))
    ensures ScenesGrow(FanOut(w, order, n), FanOut(w, order, n + 1))
  {
    var before := FanOut(w, order, n);
    FanOutOneScenesGrow(before, n);
    assert FanOut(w, order, n + 1) == if w.blueprints[n].order == order then FanOutOne(before, n) else before;
  }

  lemma FanOutScenesOn(w: World, order: nat, upTo: nat, before: World, after: World)
    requires TablesFit(w) && 0 < upTo <= |w.blueprints| && ScenesGrow(w, before)
    requires before == FanOut(w, order, upTo - 1) && after == FanOut(w, order, upTo)
    ensures ScenesGrow(w, after)
  {
    FanOutFits(w, order, upTo - 1);
    FanOutScenesNext(w, order, upTo - 1);
    ScenesGrowOn(w, before, after);
  }

  lemma {:induction false} FanOutScenesGrow(w: World, order: nat, upTo: nat)
    requires TablesFit(w) && upTo <= |w.blueprints|
    ensures ScenesGrow(w, FanOut(w, order, upTo))
    decreases upTo
  {
    var after := FanOut(w, order, upTo);
    if upTo > 0 {
      FanOutScenesGrow(w, order, upTo - 1);
      FanOutScenesOn(w, order, upTo, FanOut(w, order, upTo - 1), after);
    } else {
      assert after == w;
    }
  }

  /** Content c has the scenes it had. */
  ghost predicate ScenesOfKept(w: World, after: World, c: nat) {
    && (forall s: nat :: SceneOf(after, c, s) <==> SceneOf(w, c, s))
    && (forall s: nat :: SceneOf(w, c, s) ==> after.scenes[s] == w.scenes[s])
  }

  /** Creating tasks around content c keeps its fan-in. */
  lemma FanInGrow(w: World, after: World, c: nat)
    requires FanInAt(w, c) && c < |w.contents|
    requires Extends(w, after) && TasksKept(w, after) && ScenesOfKept(w, after, c)
    ensures FanInAt(after, c)
  {
    if FirstRound(after, c) {
      forall s: nat | Backed(after, c, s) ensures after.scenes[s].status.SceneDone? {
        assert SceneOf(w, c, s) && Backed(w, c, s);
      }
      forall s: nat | Owed(w, c, s) ensures Owed(after, c, s) { assert SceneOf(w, c, s); }
      OwedOn(w, after, c);
    }
  }

  /** A content that has just been made owes all its scenes. */
  lemma FanInFresh(w: World, k: Key, approve: bool, c: nat)
    requires Shape(w) && NotAhead(w, c) && c >= |w.contents|
    ensures FanInAt(OnTaskDone(w, k, approve), c)
  {
    var after := OnTaskDone(w, k, approve);
    OnTaskDoneKeeps(w, k, approve);
    OnTaskDoneKeys(w, k, approve);
    forall s: nat ensures !TaskDone(after, VideoKey(c, s, 1)) && Run(VideoKey(c, s, 1), true) !in after.runs {
      assert VideoKey(c, s, 1) !in w.tasks;
    }
    forall s: nat | VideoKey(c, s, 1) in after.tasks ensures c < |after.contents| {
      assert Follows(after, k, VideoKey(c, s, 1));
    }
    if s: nat :| SceneOf(after, c, s) { assert Owed(after, c, s); }
  }

  lemma OtherDoneScenes(w: World, k: Key, approve: bool, c: nat)
    requires TablesFit(w) && k in w.tasks && c < |w.contents| && !ChecksOut(w, k, c)
    ensures ScenesOfKept(w, OnTaskDone(w, k, approve), c)
  {
    if k.kind.Blueprint? {
      FanOutScenesGrow(w, w.tasks[k].order, |w.blueprints|);
      GrownScenesKept(w, OnTaskDone(w, k, approve), c);
    }
  }

  lemma GrownScenesKept(w: World, after: World, c: nat)
    requires ScenesGrow(w, after) && c < |w.contents|
    ensures ScenesOfKept(w, after, c)
  {
    forall s: nat ensures SceneOf(after, c, s) <==> SceneOf(w, c, s) {
      if s < |w.scenes| { assert after.scenes[s] == w.scenes[s]; }
    }
  }

  /** Completions of other tasks leave the fan-in of c alone. */
  lemma FanInOtherDone(w: World, k: Key, approve: bool, c: nat)
    requires Shape(w) && FanInAt(w, c) && k in w.tasks
    requires !(k.kind.GenerateVideo? && k.target == OfContent(c)) && !ChecksOut(w, k, c)
    ensures FanInAt(OnTaskDone(w, k, approve), c)
  {
    if c >= |w.contents| {
      FanInFresh(w, k, approve, c);
    } else {
      OnTaskDoneKeeps(w, k, approve);
      OnTaskDoneFits(w, k, approve);
      OtherDoneScenes(w, k, approve, c);
      FanInGrow(w, OnTaskDone(w, k, approve), c);
    }
  }

  /** The completion of a scene task: either RENDER is created now, or another scene is still owed. */
  lemma FanInSceneDone(w: World, k: Key, approve: bool, c: nat)
    requires NotAhead(w, c) && k in w.tasks && k.kind.GenerateVideo? && k.target == OfContent(c)
    requires FirstRound(w, c) ==> ScenesBacked(w, c)
    ensures FanInAt(OnTaskDone(w, k, approve), c)
  {
    if FirstRound(w, c) && !AllScenesDone(w.scenes, c) {
      assert OnTaskDone(w, k, approve) == w;
      if t: nat :| SceneOf(w, c, t) {
        var s: nat :| s < |w.scenes| && w.scenes[s].content == c && !w.scenes[s].status.SceneDone?;
        assert SceneOf(w, c, s) && !Backed(w, c, s) && Owed(w, c, s);
      }
    }
  }

  /** What sending the scenes of c back does to them and to the tasks. */
  lemma SentBackEffect(w: World, k: Key, approve: bool, c: nat)
    requires ChecksOut(w, k, c)
    ensures var after := OnTaskDone(w, k, approve);
      && after.scenes == ReopenScenes(w.scenes, c) && after.contents == w.contents
      && TasksKept(w, after) && (RenderKey(c, 1) in after.tasks <==> RenderKey(c, 1) in w.tasks)
  {
    OnTaskDoneKeeps(w, k, approve);
    SceneTasksEffect(w.(scenes := ReopenScenes(w.scenes, c)), c, w.tasks[k].order, |w.contents[c].qcResults| + 1,
                     |w.scenes|);
  }

  /** It breaks the fan-in of c when a scene had been made before the video was rendered. */
  lemma FanInSentBack(w: World, k: Key, approve: bool, c: nat)
    requires FanInAt(w, c) && ChecksOut(w, k, c)
    ensures FanInAt(OnTaskDone(w, k, approve), c) <==> !(FirstRound(w, c) && exists t: nat :: Backed(w, c, t))
  {
    var after := OnTaskDone(w, k, approve);
    SentBackEffect(w, k, approve, c);
    if FirstRound(w, c) {
      forall s: nat ensures Backed(after, c, s) <==> Backed(w, c, s) { }
      if t: nat :| Backed(w, c, t) {
        assert Backed(after, c, t) && !after.scenes[t].status.SceneDone?;
      } else {
        OwedOn(w, after, c);
      }
    }
  }

  /** Dropping the notice of another task keeps fan-in; dropping that of a scene task keeps what the scenes rest on. */
  lemma DropDoneNotice(w: World, k: Key, ack: bool, c: nat)
    requires Shape(w) && FanInAt(w, c)
    ensures var dropped := Drop(w, DoneNotice(k), ack);
      && Shape(dropped) && NotAhead(dropped, c) && (FirstRound(dropped, c) ==> ScenesBacked(dropped, c))
      && (!(k.kind.GenerateVideo? && k.target == OfContent(c)) ==> FanInAt(dropped, c))
  {
    var dropped := Drop(w, DoneNotice(k), ack);
    SameRowsKeepTables(w, dropped);
    MessagesFrom(w, dropped);
    forall s: nat | Backed(dropped, c, s) ensures Backed(w, c, s) { }
    if !(k.kind.GenerateVideo? && k.target == OfContent(c)) { FanInFrame(w, dropped, c); }
  }

  /** The completion of k once its notice has been dropped. */
  lemma FanInTaskDone(w: World, k: Key, approve: bool, c: nat)
    requires Shape(w) && NotAhead(w, c) && k in w.tasks && (FirstRound(w, c) ==> ScenesBacked(w, c))
    requires !(k.kind.GenerateVideo? && k.target == OfContent(c)) ==> FanInAt(w, c)
    ensures FanInAt(OnTaskDone(w, k, approve), c)
       <==> !(FirstRound(w, c) && ChecksOut(w, k, c) && exists t: nat :: Backed(w, c, t))
  {
    if k.kind.GenerateVideo? && k.target == OfContent(c) {
      FanInSceneDone(w, k, approve, c);
    } else if ChecksOut(w, k, c) {
      FanInSentBack(w, k, approve, c);
    } else {
      FanInOtherDone(w, k, approve, c);
    }
  }

  /** Dropping a notice changes nothing that disturbs. */
  lemma DropSendsBack(w: World, s: Step, c: nat)
    requires s.DeliverDoneStep?
    ensures var dropped := Drop(w, DoneNotice(s.key), s.ack);
      && (Disturbs(w, s, c) <==>
            (FirstRound(dropped, c) && ChecksOut(dropped, s.key, c) && exists t: nat :: Backed(dropped, c, t)))
  {
    var dropped := Drop(w, DoneNotice(s.key), s.ack);
    assert forall t: nat :: Backed(dropped, c, t) <==> Backed(w, c, t);
  }

  lemma FanInDeliverDone(w: World, s: Step, c: nat)
    requires Shape(w) && FanInAt(w, c) && Enabled(w, s) && s.DeliverDoneStep?
    ensures FanInAt(Apply(w, s), c) <==> !Disturbs(w, s, c)
  {
    DropDoneNotice(w, s.key, s.ack, c);
    DropSendsBack(w, s, c);
    FanInTaskDone(Drop(w, DoneNotice(s.key), s.ack), s.key, s.approve, c);
  }

  // ---------- steps and runs ----------

  lemma FanInFail(w: World, r: Run, f: FailureClass, c: nat)
    requires FanInAt(w, c)
    ensures FanInAt(FailRun(w, r, f), c)
  {
    var after := FailRun(w, r, f);
    forall j | DoneNotice(j) in w.notices ensures DoneNotice(j) in after.notices { }
    FanInSame(w, after, c);
  }

  /** New blueprints and verdicts. */
  lemma FanInTables(w: World, s: Step, c: nat)
    requires Enabled(w, s) && FanInAt(w, c) && (s.BlueprintStep? || s.QcStep?)
    ensures FanInAt(Apply(w, s), c) <==> !Disturbs(w, s, c)
  {
    FanInSame(w, Apply(w, s), c);
  }

  lemma FanInOperator(w: World, s: Step, c: nat)
    requires Enabled(w, s) && FanInAt(w, c)
    requires s.SlaStep? || s.ManualRetryStep? || s.ManualCancelStep? || s.OrderCancelStep?
    ensures FanInAt(Apply(w, s), c) <==> !Disturbs(w, s, c)
  {
    var after := Apply(w, s);
    OperatorKeepsRows(w, s);
    forall j | j in w.tasks ensures TaskDone(after, j) <==> TaskDone(w, j) { }
    OperatorKeepsScenes(w, s);
    FanInSame(w, after, c);
  }

  lemma OperatorKeepsScenes(w: World, s: Step)
    requires Enabled(w, s)
    requires s.SlaStep? || s.ManualRetryStep? || s.ManualCancelStep? || s.OrderCancelStep?
    ensures var after := Apply(w, s);
      && after.scenes == w.scenes && after.contents == w.contents
      && after.runs == w.runs && after.notices == w.notices
  {
  }

  lemma FanInRequest(w: World, k: Key, order: nat, c: nat)
    requires FanInAt(w, c)
    ensures FanInAt(CreateTask(w, k, order), c) <==> !(c >= |w.contents| && exists t: nat :: k == VideoKey(c, t, 1))
  {
    var after := CreateTask(w, k, order);
    CreateEffect(w, k, order);
    if c < |w.contents| {
      FanInGrow(w, after, c);
    } else if t: nat :| k == VideoKey(c, t, 1) {
      assert VideoKey(c, t, 1) in after.tasks;
    }
  }

  lemma FanInReopen(w: World, s: nat, c: nat)
    requires FanInAt(w, c) && s < |w.scenes|
    ensures FanInAt(SetScene(w, s, Pending), c) <==> !(FirstRound(w, c) && Backed(w, c, s))
  {
    var after := SetScene(w, s, Pending);
    assert forall t: nat :: Backed(after, c, t) <==> Backed(w, c, t);
    if FirstRound(w, c) && Backed(w, c, s) {
      assert Backed(after, c, s);
    } else {
      FanInFrame(w, after, c);
    }
  }

  lemma FanInByHand(w: World, s: Step, c: nat)
    requires FanInAt(w, c) && Enabled(w, s) && (s.SubmitStep? || s.RequestStep? || s.ReopenStep?)
    ensures FanInAt(Apply(w, s), c) <==> !Disturbs(w, s, c)
  {
    if s.SubmitStep? {
      FanInRequest(w, Key(Selection, OfOrder(s.order), None, 1), s.order, c);
    } else if s.RequestStep? {
      FanInRequest(w, s.key, s.order, c);
    } else {
      FanInReopen(w, s.scene, c);
    }
  }

  lemma FanInWorker(w: World, s: Step, c: nat)
    requires FanInAt(w, c) && Enabled(w, s)
    requires s.ProduceStep? || s.CompleteStep? || s.FailStep?
    ensures FanInAt(Apply(w, s), c) <==> !Disturbs(w, s, c)
  {
    if s.ProduceStep? {
      FanInProduce(w, s.key, c);
    } else if s.CompleteStep? {
      FanInComplete(w, s.key, c);
    } else {
      FanInFail(w, s.run, s.failure, c);
    }
  }

  /**
   * Content by content, whatever happens to other tasks and whatever keys are asked for by hand: a
   * step keeps fan-in if and only if it does not disturb it.
   */
  lemma FanInStep(w: World, s: Step, c: nat)
    requires Shape(w) && FanInAt(w, c) && Enabled(w, s)
    ensures FanInAt(Apply(w, s), c) <==> !Disturbs(w, s, c)
  {
    if s.SubmitStep? || s.RequestStep? || s.ReopenStep? {
      FanInByHand(w, s, c);
    } else if s.DeliverDoneStep? {
      FanInDeliverDone(w, s, c);
    } else if s.DeliverFailedStep? {
      FanInDeliverFailed(w, s, c);
    } else if s.TakeJobStep? {
      FanInTakeJob(w, s, c);
    } else if s.ProduceStep? || s.CompleteStep? || s.FailStep? {
      FanInWorker(w, s, c);
    } else if s.BlueprintStep? || s.QcStep? {
      FanInTables(w, s, c);
    } else {
      FanInOperator(w, s, c);
    }
  }

  /** No step of the run disturbs content c; steps on other contents and orders may be anything. */
  ghost predicate Undisturbed(w: World, steps: seq<Step>, c: nat)
    requires ValidRun(w, steps)
    decreases |steps|
  {
    |steps| == 0 || (!Disturbs(w, steps[0], c) && Undisturbed(Apply(w, steps[0]), steps[1..], c))
  }

  lemma {:induction false} FanInRun(w: World, steps: seq<Step>, c: nat)
    requires Shape(w) && FanInAt(w, c) && ValidRun(w, steps) && Undisturbed(w, steps, c)
    ensures FanInAt(After(w, steps), c)
    decreases |steps|
  {
    if |steps| > 0 {
      ShapeStep(w, steps[0]);
      FanInStep(w, steps[0], c);
      FanInRun(Apply(w, steps[0]), steps[1..], c);
    }
  }

  // ---------- runs without a disturbance ----------

  /** With executions exclusive and the keys of c in order, no failure overtakes a made scene of c. */
  lemma ExclusiveNeverOvertakes(w: World, s: Step, c: nat)
    requires Exclusive(w) && KeysFitAt(w, c) && Enabled(w, s) && FirstRound(w, c)
    ensures !Overtaken(w, s, c)
  {
    if s.DeliverFailedStep? && MarksScene(w, s.key, s.failure) && SceneOf(w, c, s.key.scene.value) {
      assert NamesRows(w, s.key) && KeyFits(w, s.key);
      assert s.key == VideoKey(c, s.key.scene.value, 1);
      assert ExclusiveAt(w, s.key);
    }
  }

  /** Nor does quality control send back what has not been rendered. */
  lemma FittingNeverSentBack(w: World, s: Step, c: nat)
    requires KeysFitAt(w, c) && Enabled(w, s) && FirstRound(w, c)
    ensures !SentBack(w, s, c)
  {
    assert forall k :: k in w.tasks && k.kind.Qc? ==> k.target != OfContent(c);
  }

  /** Nobody reopens a scene of content c by hand or asks for an unusual task of it. */
  ghost predicate Careful(w: World, s: Step, c: nat) {
    Fitting(w, s, c) && !(s.ReopenStep? && SceneOf(w, c, s.scene))
  }

  ghost predicate CarefulRun(w: World, steps: seq<Step>, c: nat)
    requires ValidRun(w, steps)
    decreases |steps|
  {
    |steps| == 0 || (Careful(w, steps[0], c) && CarefulRun(Apply(w, steps[0]), steps[1..], c))
  }

  /** Runs without requests and reopening are careful. */
  lemma {:induction false} AutomaticRunsAreCareful(w: World, steps: seq<Step>, c: nat)
    requires ValidRun(w, steps) && forall i :: 0 <= i < |steps| ==> !steps[i].RequestStep? && !steps[i].ReopenStep?
    ensures CarefulRun(w, steps, c)
    decreases |steps|
  {
    if |steps| > 0 {
      assert !steps[0].RequestStep? && !steps[0].ReopenStep?;
      AutomaticRunsAreCareful(Apply(w, steps[0]), steps[1..], c);
    }
  }

  /** So calm runs in which operators are careful with content c do not disturb it. */
  lemma {:induction false} CalmRunsAreUndisturbed(w: World, steps: seq<Step>, c: nat)
    requires Shape(w) && Exclusive(w) && KeysFitAt(w, c)
    requires ValidRun(w, steps) && CalmRun(w, steps) && CarefulRun(w, steps, c)
    ensures Undisturbed(w, steps, c) && KeysFitAt(After(w, steps), c)
    decreases |steps|
  {
    if |steps| > 0 {
      if FirstRound(w, c) {
        ExclusiveNeverOvertakes(w, steps[0], c);
        FittingNeverSentBack(w, steps[0], c);
      }
      ShapeStep(w, steps[0]);
      ExclusiveStep(w, steps[0]);
      KeysFitStep(w, steps[0], c);
      CalmRunsAreUndisturbed(Apply(w, steps[0]), steps[1..], c);
    }
  }

  /** All scene tasks of c are DONE and their notices consumed. */
  ghost predicate ScenesSettled(w: World, c: nat) {
    && (exists s: nat :: SceneOf(w, c, s))
    && forall s: nat :: SceneOf(w, c, s) ==>
         TaskDone(w, VideoKey(c, s, 1)) && DoneNotice(VideoKey(c, s, 1)) !in w.notices
  }

  /** The RENDER rows of content c that no regeneration after quality control asked for. */
  ghost function FirstRenders(w: World, c: nat): set<Key> {
    set k | k in w.tasks && k.kind.Render? && k.target == OfContent(c) && k.attempt == 1
  }

  /**
   * Once all scene tasks of a video are settled it has its first RENDER row, and no second one but by
   * hand, whatever the order and duplication of notices, whatever happened to other tasks and
   * whatever was asked for by hand, as long as nothing disturbed this video.
   */
  lemma RenderFollowsScenes(steps: seq<Step>, maxQcAttempts: nat, c: nat)
    requires ValidRun(Initial(maxQcAttempts), steps) && Undisturbed(Initial(maxQcAttempts), steps, c)
    requires var w := After(Initial(maxQcAttempts), steps);
      c < |w.contents| && w.contents[c].video && ScenesSettled(w, c)
    ensures {RenderKey(c, 1)} <= FirstRenders(After(Initial(maxQcAttempts), steps), c)
                              <= {RenderKey(c, 1)} + Requested(steps)
  {
    var w := After(Initial(maxQcAttempts), steps);
    InitialShape(maxQcAttempts);
    FanInRun(Initial(maxQcAttempts), steps, c);
    assert RenderKey(c, 1) in w.tasks;
    forall k | k in FirstRenders(w, c) && k !in Requested(steps) ensures k == RenderKey(c, 1) {
      if !Natural(w, k) { OddRowsAreByHand(steps, maxQcAttempts, k); }
    }
  }

  /** In particular in every calm run in which operators are careful with this video; then the row is the only one. */
  lemma RenderFollowsInCalmRuns(steps: seq<Step>, maxQcAttempts: nat, c: nat)
    requires ValidRun(Initial(maxQcAttempts), steps)
    requires CalmRun(Initial(maxQcAttempts), steps) && CarefulRun(Initial(maxQcAttempts), steps, c)
    requires var w := After(Initial(maxQcAttempts), steps);
      c < |w.contents| && w.contents[c].video && ScenesSettled(w, c)
    ensures FirstRenders(After(Initial(maxQcAttempts), steps), c) == {RenderKey(c, 1)}
  {
    var w := After(Initial(maxQcAttempts), steps);
    InitialShape(maxQcAttempts);
    assert Exclusive(Initial(maxQcAttempts));
    CalmRunsAreUndisturbed(Initial(maxQcAttempts), steps, c);
    RenderFollowsScenes(steps, maxQcAttempts, c);
    forall k | k in FirstRenders(w, c) ensures k == RenderKey(c, 1) { assert KeyFits(w, k); }
  }

  /** The first RENDER row appears only when the video has scenes and all are done, or at a request by hand. */
  lemma RenderOnlyAfterAllScenes(w: World, s: Step, c: nat)
    requires Shape(w) && Enabled(w, s)
    requires RenderKey(c, 1) !in w.tasks && RenderKey(c, 1) in Apply(w, s).tasks
    ensures (s.DeliverDoneStep? && AllScenesDone(w.scenes, c)) || (s.RequestStep? && s.key == RenderKey(c, 1))
  {
    AddedRow(w, s, RenderKey(c, 1));
    if s.DeliverDoneStep? {
      SameRowsKeepTables(w, Drop(w, DoneNotice(s.key), s.ack));
      RenderOrigin(Drop(w, DoneNotice(s.key), s.ack), s.key, s.approve, c);
    } else if s.RequestStep? {
      CreateEffect(w, s.key, s.order);
    }
  }

  lemma RenderOrigin(w: World, k: Key, approve: bool, c: nat)
    requires TablesFit(w) && RenderKey(c, 1) !in w.tasks && RenderKey(c, 1) in OnTaskDone(w, k, approve).tasks
    ensures AllScenesDone(w.scenes, c)
  {
    assert k in w.tasks;
    if k.kind.Blueprint? {
      FanOutFits(w, w.tasks[k].order, |w.blueprints|);
    } else if k.kind.Qc? && k.target.OfContent? && k.target.content < |w.contents| {
      HandleQcMakesNoRender(w, k, w.tasks[k].order, approve, c);
    }
  }

  /** A regeneration's RENDER row carries a higher attempt. */
  lemma HandleQcMakesNoRender(w: World, k: Key, order: nat, approve: bool, c: nat)
    requires RenderKey(c, 1) !in w.tasks && k.target.OfContent? && k.target.content < |w.contents|
    ensures RenderKey(c, 1) !in HandleQc(w, k, order, approve).tasks
  {
    var d := k.target.content;
    SceneTasksEffect(w.(scenes := ReopenScenes(w.scenes, d)), d, order, |w.contents[d].qcResults| + 1, |w.scenes|);
  }

  // ---------- the next round ----------

  /**
   * Once the first RENDER task is DONE, no completion of a scene task does anything any more: the
   * request repeats the finished key, so scenes regenerated after quality control are not rendered.
   */
  lemma SecondRoundStops(w: World, k: Key, approve: bool)
    requires k in w.tasks && k.kind.GenerateVideo? && k.target.OfContent?
    requires TaskDone(w, RenderKey(k.target.content, 1))
    ensures OnTaskDone(w, k, approve) == w
  {
  }

  /** And that stays so: the finished RENDER row is never queued again, over any run. */
  lemma FirstRenderIsFinal(w: World, steps: seq<Step>, k: Key, approve: bool)
    requires ValidRun(w, steps) && k in After(w, steps).tasks && k.kind.GenerateVideo? && k.target.OfContent?
    requires TaskDone(w, RenderKey(k.target.content, 1))
    ensures OnTaskDone(After(w, steps), k, approve) == After(w, steps)
  {
    A.DoneIsFinal(w, steps, RenderKey(k.target.content, 1));
    SecondRoundStops(After(w, steps), k, approve);
  }
}
