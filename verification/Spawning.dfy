/**
 * What a completion notice does to the task side of the world: a sequence of `createTask`
 * calls and nothing else.  Invariants that speak of tasks, jobs, runs, notices and events
 * only have to be proved for a single `createTask`.
 */
module Spawning {
  import opened Wrappers
  import opened TaskStates
  import opened Lifecycle

  datatype Request = Request(key: Key, order: nat)

  ghost function CreateAll(w: World, reqs: seq<Request>): World {
    if |reqs| == 0 then w
    else
      var r := reqs[|reqs| - 1];
      CreateTask(CreateAll(w, reqs[..|reqs| - 1]), r.key, r.order)
  }

  /** The world without contents and scenes. */
  ghost function TaskSide(w: World): World {
    w.(contents := [], scenes := [])
  }

  lemma {:induction false} CreateAllConcat(w: World, a: seq<Request>, b: seq<Request>)
    ensures CreateAll(w, a + b) == CreateAll(CreateAll(w, a), b)
    decreases |b|
  {
    if |b| == 0 {
      assert a + b == a;
    } else {
      var init := b[..|b| - 1];
      assert (a + b)[..|a + b| - 1] == a + init;
      CreateAllConcat(w, a, init);
    }
  }

  lemma CreateOne(w: World, k: Key, order: nat)
    ensures CreateAll(w, [Request(k, order)]) == CreateTask(w, k, order)
  {
    assert [Request(k, order)][..0] == [];
  }

  lemma {:induction false} SceneTasksSpawn(w: World, c: nat, order: nat, attempt: nat, upTo: nat)
    returns (reqs: seq<Request>)
    requires upTo <= |w.scenes|
    ensures TaskSide(CreateSceneTasks(w, c, order, attempt, upTo)) == CreateAll(TaskSide(w), reqs)
    decreases upTo
  {
    if upTo == 0 {
      reqs := [];
    } else {
      reqs := SceneTasksSpawn(w, c, order, attempt, upTo - 1);
      if w.scenes[upTo - 1].content == c {
        var r := Request(VideoKey(c, upTo - 1, attempt), order);
        assert (reqs + [r])[..|reqs|] == reqs;
        reqs := reqs + [r];
      }
    }
  }

  lemma FanOutOneSpawns(w: World, b: nat) returns (reqs: seq<Request>)
    requires b < |w.blueprints|
    ensures TaskSide(FanOutOne(w, b)) == CreateAll(TaskSide(w), reqs)
  {
    var bp := w.blueprints[b];
    var (w1, c) := WithContent(w, b);
    if bp.video {
      var w2 := w1.(scenes := Materialize(w1.scenes, c, bp.planLength));
      reqs := SceneTasksSpawn(w2, c, bp.order, 1, |w2.scenes|);
    } else {
      CreateOne(TaskSide(w), ImageKey(c, 1), bp.order);
      reqs := [Request(ImageKey(c, 1), bp.order)];
    }
  }

  lemma {:induction false} FanOutSpawns(w: World, order: nat, upTo: nat) returns (reqs: seq<Request>)
    requires upTo <= |w.blueprints|
    ensures TaskSide(FanOut(w, order, upTo)) == CreateAll(TaskSide(w), reqs)
    decreases upTo
  {
    if upTo == 0 {
      reqs := [];
    } else {
      var first := FanOutSpawns(w, order, upTo - 1);
      var more := FanOutNextSpawns(w, order, upTo - 1);
      CreateAllConcat(TaskSide(w), first, more);
      reqs := first + more;
    }
  }

  lemma FanOutNextSpawns(w: World, order: nat, n: nat) returns (reqs: seq<Request>)
    requires n < |w.blueprints|
    ensures TaskSide(FanOut(w, order, n + 1)) == CreateAll(TaskSide(FanOut(w, order, n)), reqs)
  {
    var before := FanOut(w, order, n);
    reqs := FanOutOneSpawns(before, n);
    assert FanOut(w, order, n + 1) == if w.blueprints[n].order == order then FanOutOne(before, n) else before;
    if w.blueprints[n].order != order { reqs := []; }
  }

  lemma CreateSpawns(w: World, k: Key, order: nat) returns (reqs: seq<Request>)
    ensures TaskSide(CreateTask(w, k, order)) == CreateAll(TaskSide(w), reqs)
  {
    CreateOne(TaskSide(w), k, order);
    reqs := [Request(k, order)];
  }

  lemma HandleQcSpawns(w: World, k: Key, order: nat, approve: bool) returns (reqs: seq<Request>)
    requires k.target.OfContent? && k.target.content < |w.contents|
    ensures TaskSide(HandleQc(w, k, order, approve)) == CreateAll(TaskSide(w), reqs)
  {
    reqs := [];
    var c := k.target.content;
    var results := w.contents[c].qcResults;
    if |results| > 0 {
      var last := results[|results| - 1];
      if last.verdict.Pass? && approve {
        reqs := CreateSpawns(w, PublishKey(c), order);
      } else if last.verdict.Fail? && |results| < w.maxQcAttempts {
        var kind := ModuleForRetryTarget(last.retryTarget, w.contents[c].video);
        if kind.GenerateVideo? {
          reqs := SceneTasksSpawn(w.(scenes := ReopenScenes(w.scenes, c)), c, order, |results| + 1, |w.scenes|);
        } else {
          reqs := CreateSpawns(w, Key(kind, OfContent(c), None, |results| + 1), order);
        }
      }
    }
  }

  /** Delivering a completion creates tasks; to jobs, runs, notices and events it does nothing more. */
  lemma OnTaskDoneSpawns(w: World, k: Key, approve: bool) returns (reqs: seq<Request>)
    ensures TaskSide(OnTaskDone(w, k, approve)) == CreateAll(TaskSide(w), reqs)
  {
    reqs := [];
    if k in w.tasks {
      var order := w.tasks[k].order;
      if k.kind.Selection? {
        reqs := CreateSpawns(w, Key(Blueprint, OfOrder(order), None, 1), order);
      } else if k.kind.Blueprint? {
        reqs := FanOutSpawns(w, order, |w.blueprints|);
      } else if !k.kind.Publish? && k.target.OfContent? && k.target.content < |w.contents| {
        var c := k.target.content;
        if k.kind.GenerateVideo? {
          if AllScenesDone(w.scenes, c) { reqs := CreateSpawns(w, RenderKey(c, 1), order); }
        } else if k.kind.Qc? {
          reqs := HandleQcSpawns(w, k, order, approve);
        } else {
          reqs := CreateSpawns(w, QcKey(c, |w.contents[c].qcResults| + 1), order);
        }
      }
    }
  }
}
