/**
 * What follows what: a requested task is served, a completion asks for the next stage, and the
 * verdict of quality control decides what becomes of a content.
 */
module FollowUps {
  import opened Wrappers
  import opened TaskStates
  import opened Lifecycle
  import opened Spawning
  import opened NoStranded
  import opened Rows
  import opened Redelivery

  // ---------- Requests ----------

  /** The task is DONE, or at work, or waiting with a job: nobody has to ask for it again. */
  ghost predicate Served(w: World, k: Key) {
    && k in w.tasks
    && var state := w.tasks[k].state;
       state == Done
       || (state == Running && (HasRun(w, k) || HasFailNotice(w, k)))
       || ((state == Queued || state == Retry || state == Fallback) && k in w.jobs)
  }

  /** Rows and jobs of other tasks are as they were, and so is everything that is no task. */
  ghost predicate OnlyTouches(w: World, after: World, keys: set<Key>) {
    && (forall j :: j !in keys ==> (j in after.tasks <==> j in w.tasks) && after.jobs[j] == w.jobs[j])
    && (forall j :: j in w.tasks && j !in keys ==> after.tasks[j] == w.tasks[j])
    && after.runs == w.runs && after.notices == w.notices
    && after.blueprints == w.blueprints && after.contents == w.contents && after.maxQcAttempts == w.maxQcAttempts
  }

  /** One task is asked for, and nothing else happens. */
  ghost predicate AsksFor(w: World, after: World, k: Key) {
    Served(after, k) && OnlyTouches(w, after, {k}) && after.scenes == w.scenes
  }

  /**
   * A missing row is inserted and a dead one revived, QUEUED with one more job and one more entry in
   * the log; a row that is live or DONE is left alone.
   */
  lemma RequestEffect(w: World, k: Key, order: nat)
    ensures var after := CreateTask(w, k, order);
      var dead := k in w.tasks && w.tasks[k].state in {Escalated, Failed, Cancelled};
      && OnlyTouches(w, after, {k}) && after.scenes == w.scenes
      && (k !in w.tasks ==>
            k in after.tasks && after.tasks[k].state == Queued && after.tasks[k].order == order
            && after.tasks[k].deferrals == 0 && after.tasks[k].maxRetry == SpecMaxRetry(k.kind)
            && (k.attempt > 0 ==> after.tasks[k].retryCount + 1 == k.attempt))
      && (dead ==> after.tasks[k] == w.tasks[k].(state := Queued))
      && (k !in w.tasks || dead ==>
            after.jobs[k] == w.jobs[k] + 1 && |after.events| == |w.events| + 1 && w.events <= after.events
            && after.events[|w.events|].key == k && after.events[|w.events|].to == Queued)
      && (k in w.tasks && !dead ==> after == w)
  {
  }

  /** After any request the task is served, whatever state its row was in. */
  lemma RequestServes(w: World, k: Key, order: nat)
    requires Live(w)
    ensures Live(CreateTask(w, k, order)) && AsksFor(w, CreateTask(w, k, order), k)
  {
    LiveCreate(w, k, order);
    RequestEffect(w, k, order);
    assert LiveAt(CreateTask(w, k, order), k);
  }

  /** In particular after an operator's request in any reachable world. */
  lemma RequestStepServes(steps: seq<Step>, maxQcAttempts: nat, k: Key, order: nat)
    requires ValidRun(Initial(maxQcAttempts), steps) && k.attempt >= 1
    ensures var w := After(Initial(maxQcAttempts), steps);
      Enabled(w, RequestStep(k, order)) && AsksFor(w, Apply(w, RequestStep(k, order)), k)
  {
    NoTaskIsStranded(Initial(maxQcAttempts), steps);
    RequestServes(After(Initial(maxQcAttempts), steps), k, order);
  }

  lemma ApprovalServes(w: World, c: nat, order: nat)
    requires Live(w)
    ensures AsksFor(w, Approve(w, c, order, false), PublishKey(c)) && Approve(w, c, order, true) == w
  {
    RequestServes(w, PublishKey(c), order);
  }

  /** The kind of task that makes a content's weakest part again. */
  ghost predicate Remakes(kind: Kind, target: RetryTarget, video: bool) {
    if !video then kind == GenerateImage
    else if target == Brand || target == AiRisk then kind == Render
    else kind == GenerateVideo
  }

  /** Regeneration by hand: the scene is open again, and the next attempt of the module is served for it. */
  lemma RegenerationServes(w: World, c: nat, target: RetryTarget, scene: Option<nat>, kind: Kind)
    requires Live(w) && c < |w.contents| && Remakes(kind, target, w.contents[c].video)
    ensures var after := RegenerateByHand(w, c, target, scene);
      var k := Key(kind, OfContent(c), scene, |w.contents[c].qcResults| + 1);
      if scene.Some? && !(scene.value < |w.scenes| && w.scenes[scene.value].content == c) then after == w
      else
        && Served(after, k) && OnlyTouches(w, after, {k})
        && after.scenes == if scene.Some? then w.scenes[scene.value := w.scenes[scene.value].(status := Pending)]
                           else w.scenes
  {
    if scene.Some? && scene.value < |w.scenes| && w.scenes[scene.value].content == c {
      var reopened := SetScene(w, scene.value, Pending);
      LiveFrame(w, reopened);
      RequestServes(reopened, Key(kind, OfContent(c), scene, |w.contents[c].qcResults| + 1), w.contents[c].order);
    } else if scene.None? {
      RequestServes(w, Key(kind, OfContent(c), None, |w.contents[c].qcResults| + 1), w.contents[c].order);
    }
  }

  // ---------- Requests one after another ----------

  lemma ServedKept(w: World, j: Key, order: nat, k: Key)
    requires Served(w, k)
    ensures Served(CreateTask(w, j, order), k)
  {
    var after := CreateTask(w, j, order);
    if HasFailNotice(w, k) {
      var f :| FailNotice(k, f) in w.notices;
      assert FailNotice(k, f) in after.notices;
    }
  }

  lemma {:induction false} ServedKeptByAll(w: World, reqs: seq<Request>, k: Key)
    requires Served(w, k)
    ensures Served(CreateAll(w, reqs), k)
    decreases |reqs|
  {
    if |reqs| > 0 {
      var init, last := reqs[..|reqs| - 1], reqs[|reqs| - 1];
      ServedKeptByAll(w, init, k);
      ServedKept(CreateAll(w, init), last.key, last.order, k);
    }
  }

  lemma TouchesMore(w: World, before: World, after: World, some: set<Key>, k: Key)
    requires OnlyTouches(w, before, some) && OnlyTouches(before, after, {k})
    ensures OnlyTouches(w, after, some + {k})
  {
  }

  ghost predicate ServedAll(w: World, keys: set<Key>) {
    forall k :: k in keys ==> Served(w, k)
  }

  /** All these tasks are asked for, and nothing else is touched. */
  ghost predicate AsksForAll(w: World, after: World, keys: set<Key>) {
    Live(after) && OnlyTouches(w, after, keys) && ServedAll(after, keys)
  }

  lemma AsksForOneMore(w: World, before: World, keys: set<Key>, k: Key, order: nat, after: World)
    requires AsksForAll(w, before, keys) && after == CreateTask(before, k, order)
    ensures AsksForAll(w, after, keys + {k})
  {
    RequestServes(before, k, order);
    TouchesMore(w, before, after, keys, k);
    forall j | j in keys ensures Served(after, j) {
      ServedKept(before, k, order, j);
    }
  }

  /** Asking for the tasks of all scenes serves each and touches nothing else. */
  lemma {:induction false} SceneTasksServe(w: World, c: nat, order: nat, attempt: nat, upTo: nat)
    requires Live(w) && upTo <= |w.scenes|
    ensures AsksForAll(w, CreateSceneTasks(w, c, order, attempt, upTo), SceneKeys(w.scenes, c, attempt, upTo))
    decreases upTo
  {
    var after := CreateSceneTasks(w, c, order, attempt, upTo);
    if upTo > 0 {
      var before, keys := CreateSceneTasks(w, c, order, attempt, upTo - 1), SceneKeys(w.scenes, c, attempt, upTo - 1);
      SceneTasksServe(w, c, order, attempt, upTo - 1);
      SceneKeysNext(w.scenes, c, attempt, upTo - 1);
      if w.scenes[upTo - 1].content == c {
        AsksForOneMore(w, before, keys, VideoKey(c, upTo - 1, attempt), order, after);
      } else {
        assert after == before && SceneKeys(w.scenes, c, attempt, upTo) == keys + {} == keys;
      }
    }
  }

  // ---------- Quality control ----------

  /** All scenes of the content are open again, and a task of this attempt is served for each. */
  ghost predicate ScenesAgain(w: World, after: World, c: nat, attempt: nat) {
    && |after.scenes| == |w.scenes|
    && (forall s :: 0 <= s < |w.scenes| ==>
          after.scenes[s] == if w.scenes[s].content == c then w.scenes[s].(status := Pending) else w.scenes[s])
    && ServedAll(after, SceneKeys(w.scenes, c, attempt, |w.scenes|))
    && OnlyTouches(w, after, SceneKeys(w.scenes, c, attempt, |w.scenes|))
  }

  /** The next attempt of what failed: the image, the rendering, or all scenes. */
  ghost predicate TriesAgain(w: World, after: World, c: nat, target: RetryTarget, attempt: nat)
    requires c < |w.contents|
  {
    if !w.contents[c].video then AsksFor(w, after, ImageKey(c, attempt))
    else if target == Brand || target == AiRisk then AsksFor(w, after, RenderKey(c, attempt))
    else ScenesAgain(w, after, c, attempt)
  }

  lemma RegeneratedTriesAgain(w: World, c: nat, order: nat, target: RetryTarget, attempt: nat)
    requires Live(w) && c < |w.contents|
    ensures TriesAgain(w, Regenerated(w, ModuleForRetryTarget(target, w.contents[c].video), c, order, attempt),
                       c, target, attempt)
  {
    var kind := ModuleForRetryTarget(target, w.contents[c].video);
    if kind.GenerateVideo? {
      var reopened := w.(scenes := ReopenScenes(w.scenes, c));
      LiveFrame(w, reopened);
      SceneTasksServe(reopened, c, order, attempt, |w.scenes|);
      assert SceneKeys(reopened.scenes, c, attempt, |w.scenes|) == SceneKeys(w.scenes, c, attempt, |w.scenes|);
    } else {
      RequestServes(w, Key(kind, OfContent(c), None, attempt), order);
    }
  }

  /**
   * What a verdict leads to: BLOCKED stops, PASS asks for publishing if it is approved, and FAIL asks
   * for what failed once more, as attempt number results + 1, while attempts are left.
   */
  ghost predicate ActsOn(w: World, after: World, c: nat, approve: bool, last: QcResult)
    requires c < |w.contents|
  {
    var n := |w.contents[c].qcResults|;
    && (last.verdict == Blocked ==> after == w)
    && (last.verdict == Pass ==> if approve then AsksFor(w, after, PublishKey(c)) else after == w)
    && (last.verdict == Fail ==>
          if n < w.maxQcAttempts then TriesAgain(w, after, c, last.retryTarget, n + 1) else after == w)
  }

  /** A check of a content that has a verdict. */
  ghost predicate Judged(w: World, k: Key) {
    k in w.tasks && k.kind.Qc? && k.target.OfContent? && k.target.content < |w.contents|
    && |w.contents[k.target.content].qcResults| > 0
  }

  ghost function Latest(w: World, k: Key): QcResult
    requires Judged(w, k)
  {
    var results := w.contents[k.target.content].qcResults;
    results[|results| - 1]
  }

  /** The latest verdict decides. */
  lemma VerdictDecides(w: World, k: Key, approve: bool, last: QcResult)
    requires Live(w) && Judged(w, k) && last == Latest(w, k)
    ensures ActsOn(w, OnTaskDone(w, k, approve), k.target.content, approve, last)
  {
    VerdictActs(w, k, w.tasks[k].order, approve, last, OnTaskDone(w, k, approve));
  }

  lemma VerdictActs(w: World, k: Key, order: nat, approve: bool, last: QcResult, after: World)
    requires Live(w) && Judged(w, k) && last == Latest(w, k) && after == HandleQc(w, k, order, approve)
    ensures ActsOn(w, after, k.target.content, approve, last)
  {
    var c := k.target.content;
    if last.verdict == Pass {
      PassActs(w, c, order, approve, last, after);
    } else if last.verdict == Fail {
      FailActs(w, c, order, approve, last, after);
    }
  }

  lemma PassActs(w: World, c: nat, order: nat, approve: bool, last: QcResult, after: World)
    requires Live(w) && c < |w.contents| && last.verdict == Pass
    requires after == if approve then CreateTask(w, PublishKey(c), order) else w
    ensures ActsOn(w, after, c, approve, last)
  {
    if approve { RequestServes(w, PublishKey(c), order); }
  }

  lemma FailActs(w: World, c: nat, order: nat, approve: bool, last: QcResult, after: World)
    requires Live(w) && c < |w.contents| && last.verdict == Fail
    requires after == RetryOrStop(w, c, order, last.retryTarget, |w.contents[c].qcResults|)
    ensures ActsOn(w, after, c, approve, last)
  {
    var n := |w.contents[c].qcResults|;
    if n < w.maxQcAttempts { RegeneratedTriesAgain(w, c, order, last.retryTarget, n + 1); }
  }

  // ---------- Other completions ----------

  /** A selection asks for the blueprints, an image or a rendering for its check, the last scene for the rendering. */
  lemma NextStage(w: World, k: Key, approve: bool)
    requires Live(w) && k in w.tasks
    ensures var after, order := OnTaskDone(w, k, approve), w.tasks[k].order;
      && (k.kind == Selection ==> AsksFor(w, after, Key(Blueprint, OfOrder(order), None, 1)))
      && (k.kind == Publish ==> after == w)
      && (k.target.OfContent? && k.target.content < |w.contents| ==>
            var c := k.target.content;
            && (k.kind == GenerateImage || k.kind == Render ==>
                  AsksFor(w, after, QcKey(c, |w.contents[c].qcResults| + 1)))
            && (k.kind == GenerateVideo ==>
                  if (exists s :: 0 <= s < |w.scenes| && w.scenes[s].content == c)
                     && (forall s :: 0 <= s < |w.scenes| && w.scenes[s].content == c ==>
                           w.scenes[s].status == SceneDone)
                  then AsksFor(w, after, RenderKey(c, 1)) else after == w)
            && (k.kind == Qc && w.contents[c].qcResults == [] ==> after == w))
  {
    var order := w.tasks[k].order;
    if k.kind == Selection {
      RequestServes(w, Key(Blueprint, OfOrder(order), None, 1), order);
    } else if k.target.OfContent? && k.target.content < |w.contents| {
      ContentStage(w, k, approve);
    }
  }

  lemma ContentStage(w: World, k: Key, approve: bool)
    requires Live(w) && k in w.tasks && k.target.OfContent? && k.target.content < |w.contents|
    ensures var c, after := k.target.content, OnTaskDone(w, k, approve);
      && (k.kind == GenerateImage || k.kind == Render ==> AsksFor(w, after, QcKey(c, |w.contents[c].qcResults| + 1)))
      && (k.kind == GenerateVideo ==>
            if AllScenesDone(w.scenes, c) then AsksFor(w, after, RenderKey(c, 1)) else after == w)
      && (k.kind == Qc && w.contents[c].qcResults == [] ==> after == w)
  {
    var c, order := k.target.content, w.tasks[k].order;
    if k.kind == GenerateImage || k.kind == Render {
      RequestServes(w, QcKey(c, |w.contents[c].qcResults| + 1), order);
    } else if k.kind == GenerateVideo {
      SceneStage(w, k, approve, OnTaskDone(w, k, approve));
    }
  }

  lemma SceneStage(w: World, k: Key, approve: bool, after: World)
    requires Live(w) && k in w.tasks && k.target.OfContent? && k.target.content < |w.contents|
    requires k.kind == GenerateVideo && after == OnTaskDone(w, k, approve)
    ensures var c := k.target.content;
      if AllScenesDone(w.scenes, c) then AsksFor(w, after, RenderKey(c, 1)) else after == w
  {
    RequestServes(w, RenderKey(k.target.content, 1), w.tasks[k].order);
  }

  /** Dropping a notice keeps every task live, so all this holds of deliveries in reachable worlds. */
  lemma DeliveredLive(steps: seq<Step>, maxQcAttempts: nat, k: Key, ack: bool)
    requires ValidRun(Initial(maxQcAttempts), steps)
    requires DoneNotice(k) in After(Initial(maxQcAttempts), steps).notices
    ensures var w := Drop(After(Initial(maxQcAttempts), steps), DoneNotice(k), ack);
      Live(w) && TablesFit(w) && k in w.tasks
  {
    var w := After(Initial(maxQcAttempts), steps);
    InitialShape(maxQcAttempts);
    ShapeRun(Initial(maxQcAttempts), steps);
    NoTaskIsStranded(Initial(maxQcAttempts), steps);
    LiveFrame(w, Drop(w, DoneNotice(k), ack));
    SameRowsKeepTables(w, Drop(w, DoneNotice(k), ack));
  }

  /** Whatever the run before, delivering a check's completion does what the latest verdict says. */
  lemma VerdictDelivered(steps: seq<Step>, maxQcAttempts: nat, k: Key, approve: bool, ack: bool, last: QcResult)
    requires ValidRun(Initial(maxQcAttempts), steps)
    requires var w := After(Initial(maxQcAttempts), steps);
      DoneNotice(k) in w.notices && Judged(w, k) && last == Latest(w, k)
    ensures var w := After(Initial(maxQcAttempts), steps);
      ActsOn(Drop(w, DoneNotice(k), ack), Apply(w, DeliverDoneStep(k, approve, ack)), k.target.content, approve, last)
  {
    DeliveredLive(steps, maxQcAttempts, k, ack);
    var w := After(Initial(maxQcAttempts), steps);
    DeliverVerdict(w, k, approve, ack, last, Drop(w, DoneNotice(k), ack));
  }

  lemma DeliverVerdict(w: World, k: Key, approve: bool, ack: bool, last: QcResult, dropped: World)
    requires DoneNotice(k) in w.notices && dropped == Drop(w, DoneNotice(k), ack) && Live(dropped)
    requires Judged(dropped, k) && last == Latest(dropped, k)
    ensures ActsOn(dropped, Apply(w, DeliverDoneStep(k, approve, ack)), k.target.content, approve, last)
  {
    VerdictDecides(dropped, k, approve, last);
  }

  // ---------- Fan-out ----------

  /** The blueprint has its content, and every task fan-out asks for is served. */
  ghost predicate BlueprintServed(w: World, b: nat) {
    exists c: nat :: c < |w.contents| && w.contents[c].blueprint == b && ServedAll(w, AskedFor(w, c))
  }

  lemma FanOutOneServes(w: World, b: nat)
    requires Live(w) && TablesFit(w) && b < |w.blueprints|
    ensures Live(FanOutOne(w, b)) && BlueprintServed(FanOutOne(w, b), b)
  {
    var (w1, c) := WithContent(w, b);
    var bp, after := w.blueprints[b], FanOutOne(w, b);
    WithContentFits(w, b);
    LiveFrame(w, w1);
    if bp.video {
      var w2 := w1.(scenes := Materialize(w1.scenes, c, bp.planLength));
      LiveFrame(w1, w2);
      SceneTasksServe(w2, c, bp.order, 1, |w2.scenes|);
    } else {
      RequestServes(w1, ImageKey(c, 1), bp.order);
    }
    assert ServedAll(after, AskedFor(after, c));
  }

  /** Other blueprints' fan-out takes nothing back. */
  lemma FanOutOneKeepsServed(w: World, b: nat, d: nat)
    requires TablesFit(w) && b < |w.blueprints| && BlueprintServed(w, d)
    ensures BlueprintServed(FanOutOne(w, b), d)
  {
    var c: nat :| c < |w.contents| && w.contents[c].blueprint == d && ServedAll(w, AskedFor(w, c));
    var after := FanOutOne(w, b);
    var reqs := FanOutOneSpawns(w, b);
    FanOutOneGrows(w, b);
    FanOutOneSceneRows(w, b);
    assert after.contents[c] == w.contents[c];
    forall k | k in AskedFor(after, c) ensures Served(after, k) {
      assert k in AskedFor(w, c);
      ServedKeptByAll(TaskSide(w), reqs, k);
      assert Served(TaskSide(after), k);
    }
  }

  lemma FanOutNextServes(w: World, order: nat, n: nat)
    requires n < |w.blueprints| && Live(FanOut(w, order, n)) && TablesFit(FanOut(w, order, n))
    requires forall b :: 0 <= b < n && w.blueprints[b].order == order ==> BlueprintServed(FanOut(w, order, n), b)
    ensures Live(FanOut(w, order, n + 1))
    ensures forall b :: 0 <= b <= n && w.blueprints[b].order == order ==> BlueprintServed(FanOut(w, order, n + 1), b)
  {
    var before := FanOut(w, order, n);
    if w.blueprints[n].order == order {
      FanOutOneServes(before, n);
      forall b | 0 <= b < n && w.blueprints[b].order == order ensures BlueprintServed(FanOutOne(before, n), b) {
        FanOutOneKeepsServed(before, n, b);
      }
      assert FanOut(w, order, n + 1) == FanOutOne(before, n);
    } else {
      assert FanOut(w, order, n + 1) == before;
    }
  }

  /** A completed BLUEPRINT task leaves no blueprint of its order without its content and tasks at work. */
  lemma {:induction false} FanOutServes(w: World, order: nat, upTo: nat)
    requires Live(w) && TablesFit(w) && upTo <= |w.blueprints|
    ensures Live(FanOut(w, order, upTo))
    ensures forall b :: 0 <= b < upTo && w.blueprints[b].order == order ==> BlueprintServed(FanOut(w, order, upTo), b)
    decreases upTo
  {
    if upTo > 0 {
      FanOutServes(w, order, upTo - 1);
      FanOutFits(w, order, upTo - 1);
      FanOutNextServes(w, order, upTo - 1);
    }
  }

  /** So in every reachable world the delivery of a blueprint completion serves its whole order. */
  lemma BlueprintDelivered(steps: seq<Step>, maxQcAttempts: nat, k: Key, approve: bool, ack: bool, b: nat)
    requires ValidRun(Initial(maxQcAttempts), steps) && k.kind.Blueprint?
    requires var w := After(Initial(maxQcAttempts), steps);
      && DoneNotice(k) in w.notices && k in w.tasks
      && b < |w.blueprints| && w.blueprints[b].order == w.tasks[k].order
    ensures BlueprintServed(Apply(After(Initial(maxQcAttempts), steps), DeliverDoneStep(k, approve, ack)), b)
  {
    DeliveredLive(steps, maxQcAttempts, k, ack);
    var w := After(Initial(maxQcAttempts), steps);
    DeliverBlueprint(w, k, approve, ack, b, Drop(w, DoneNotice(k), ack));
  }

  lemma DeliverBlueprint(w: World, k: Key, approve: bool, ack: bool, b: nat, dropped: World)
    requires DoneNotice(k) in w.notices && dropped == Drop(w, DoneNotice(k), ack) && Live(dropped) && TablesFit(dropped)
    requires k in dropped.tasks && k.kind.Blueprint?
    requires b < |dropped.blueprints| && dropped.blueprints[b].order == dropped.tasks[k].order
    ensures BlueprintServed(Apply(w, DeliverDoneStep(k, approve, ack)), b)
  {
    FanOutServes(dropped, dropped.tasks[k].order, |dropped.blueprints|);
  }

  // ---------- Publishing needs a PASS ----------

  ghost predicate Passed(w: World, c: nat) {
    c < |w.contents| && exists i :: 0 <= i < |w.contents[c].qcResults| && w.contents[c].qcResults[i].verdict == Pass
  }

  /** Every PUBLISH row that was not asked for by hand is for a content that passed a check. */
  ghost predicate PublishedPassed(w: World, byHand: set<Key>) {
    forall k :: k in w.tasks && k.kind == Publish && k !in byHand ==> k.target.OfContent? && Passed(w, k.target.content)
  }

  /** Contents and their verdicts are only added to. */
  ghost predicate ResultsKept(w: World, after: World) {
    |w.contents| <= |after.contents|
    && forall c :: 0 <= c < |w.contents| ==> w.contents[c].qcResults <= after.contents[c].qcResults
  }

  lemma StepKeepsResults(w: World, s: Step)
    requires Shape(w) && Enabled(w, s)
    ensures ResultsKept(w, Apply(w, s))
  {
    if s.DeliverDoneStep? {
      var dropped := Drop(w, DoneNotice(s.key), s.ack);
      SameRowsKeepTables(w, dropped);
      DoneKeepsContents(dropped, s.key, s.approve);
    } else if s.DeliverFailedStep? {
      var dropped := Drop(w, FailNotice(s.key, s.failure), s.ack);
      assert s.key in dropped.tasks;
      HandleEffect(dropped, s.key, s.failure);
    } else if s.TakeJobStep? {
      if s.key in w.tasks && Waiting(w.tasks[s.key].state) {
        var _ := StartRunEffect(if s.redeliver then w else w.(jobs := w.jobs - multiset{s.key}), s.key);
      }
    } else if s.SubmitStep? {
      CreateEffect(w, Key(Selection, OfOrder(s.order), None, 1), s.order);
    } else if s.RequestStep? {
      CreateEffect(w, s.key, s.order);
    }
  }

  lemma DoneKeepsContents(w: World, k: Key, approve: bool)
    requires TablesFit(w)
    ensures w.contents <= OnTaskDone(w, k, approve).contents
  {
    if k in w.tasks && k.kind.Blueprint? {
      FanOutKeepsContents(w, w.tasks[k].order, |w.blueprints|);
    }
  }

  lemma {:induction false} FanOutKeepsContents(w: World, order: nat, upTo: nat)
    requires TablesFit(w) && upTo <= |w.blueprints|
    ensures w.contents <= FanOut(w, order, upTo).contents
    decreases upTo
  {
    if upTo > 0 {
      var before := FanOut(w, order, upTo - 1);
      FanOutKeepsContents(w, order, upTo - 1);
      FanOutFits(w, order, upTo - 1);
      FanOutNextKeepsContents(w, order, upTo, before);
    }
  }

  lemma FanOutNextKeepsContents(w: World, order: nat, upTo: nat, before: World)
    requires 0 < upTo <= |w.blueprints| && before == FanOut(w, order, upTo - 1) && TablesFit(before)
    ensures before.contents <= FanOut(w, order, upTo).contents
  {
    FanOutOneGrows(before, upTo - 1);
  }

  /** A completion makes a PUBLISH row only for the content of a check whose latest verdict is PASS. */
  lemma PublishFollowsPass(w: World, k: Key, approve: bool, j: Key)
    requires TablesFit(w) && j.kind.Publish? && j !in w.tasks && j in OnTaskDone(w, k, approve).tasks
    ensures k.target.OfContent? && j == PublishKey(k.target.content) && Passed(w, k.target.content)
  {
    var order := w.tasks[k].order;
    if k.kind.Blueprint? {
      FanOutFits(w, order, |w.blueprints|);
    } else if k.kind.Qc? && k.target.OfContent? && k.target.content < |w.contents| {
      HandleQcPublishes(w, k, order, approve, j);
    }
  }

  lemma HandleQcPublishes(w: World, k: Key, order: nat, approve: bool, j: Key)
    requires k.target.OfContent? && k.target.content < |w.contents|
    requires j.kind.Publish? && j !in w.tasks && j in HandleQc(w, k, order, approve).tasks
    ensures j == PublishKey(k.target.content) && Passed(w, k.target.content)
  {
    var c := k.target.content;
    var results := w.contents[c].qcResults;
    if |results| > 0 && results[|results| - 1].verdict == Fail {
      RetryMakesNoPublish(w, c, order, results[|results| - 1].retryTarget, |results|, j);
    } else {
      CreateEffect(w, PublishKey(c), order);
    }
  }

  lemma RetryMakesNoPublish(w: World, c: nat, order: nat, target: RetryTarget, n: nat, j: Key)
    requires c < |w.contents| && j.kind.Publish? && j !in w.tasks
    ensures j !in RetryOrStop(w, c, order, target, n).tasks
  {
    var kind := ModuleForRetryTarget(target, w.contents[c].video);
    if kind.GenerateVideo? {
      SceneTasksEffect(w.(scenes := ReopenScenes(w.scenes, c)), c, order, n + 1, |w.scenes|);
    } else {
      CreateEffect(w, Key(kind, OfContent(c), None, n + 1), order);
    }
  }

  lemma PublishedPassedStep(w: World, s: Step, byHand: set<Key>)
    requires Shape(w) && Enabled(w, s) && PublishedPassed(w, byHand)
    ensures PublishedPassed(Apply(w, s), byHand + if s.RequestStep? then {s.key} else {})
  {
    var after := Apply(w, s);
    ShapeStep(w, s);
    StepKeepsResults(w, s);
    forall k | k in after.tasks && k.kind == Publish && k !in byHand && !(s.RequestStep? && k == s.key)
      ensures k.target.OfContent? && Passed(after, k.target.content)
    {
      if k !in w.tasks {
        AddedRow(w, s, k);
        var dropped := Drop(w, DoneNotice(s.key), s.ack);
        SameRowsKeepTables(w, dropped);
        PublishFollowsPass(dropped, s.key, s.approve, k);
      }
      assert Passed(w, k.target.content);
      StillPassed(w, after, k.target.content);
    }
  }

  lemma StillPassed(w: World, after: World, c: nat)
    requires Passed(w, c) && ResultsKept(w, after)
    ensures Passed(after, c)
  {
    var i :| 0 <= i < |w.contents[c].qcResults| && w.contents[c].qcResults[i].verdict == Pass;
    assert after.contents[c].qcResults[i] == w.contents[c].qcResults[i];
  }

  lemma {:induction false} PublishedPassedRun(w: World, steps: seq<Step>, byHand: set<Key>)
    requires Shape(w) && ValidRun(w, steps) && PublishedPassed(w, byHand)
    ensures PublishedPassed(After(w, steps), byHand + Requested(steps))
    decreases |steps|
  {
    if |steps| > 0 {
      var now := if steps[0].RequestStep? then {steps[0].key} else {};
      PublishedPassedStep(w, steps[0], byHand);
      ShapeStep(w, steps[0]);
      PublishedPassedRun(Apply(w, steps[0]), steps[1..], byHand + now);
      RequestedNext(steps);
      assert byHand + now + Requested(steps[1..]) == byHand + Requested(steps);
    }
  }

  /** Over every run: without an operator's request nothing is published that never passed quality control. */
  lemma PublishNeedsPass(steps: seq<Step>, maxQcAttempts: nat, k: Key)
    requires ValidRun(Initial(maxQcAttempts), steps)
    requires k in After(Initial(maxQcAttempts), steps).tasks && k.kind == Publish && k !in Requested(steps)
    ensures k.target.OfContent? && Passed(After(Initial(maxQcAttempts), steps), k.target.content)
  {
    InitialShape(maxQcAttempts);
    PublishedPassedRun(Initial(maxQcAttempts), steps, {});
  }
}
