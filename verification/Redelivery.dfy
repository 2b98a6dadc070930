/**
 * Fan-out under redelivery, and the bound on automatic regeneration.
 */
module Redelivery {
  import opened Wrappers
  import opened TaskStates
  import opened Lifecycle
  import opened Spawning
  import opened NoStranded
  import opened Rows

  ghost predicate HasContent(contents: seq<ContentRow>, b: nat) {
    exists c :: 0 <= c < |contents| && contents[c].blueprint == b
  }

  /** Every blueprint of the order has its content row. */
  ghost predicate FannedOut(w: World, order: nat) {
    forall b :: 0 <= b < |w.blueprints| && w.blueprints[b].order == order ==> HasContent(w.contents, b)
  }

  /** Content rows are only ever appended, and keep their blueprint. */
  ghost predicate ContentsGrow(w: World, after: World) {
    && |w.contents| <= |after.contents|
    && forall c :: 0 <= c < |w.contents| ==> after.contents[c].blueprint == w.contents[c].blueprint
  }

  lemma GrownHasContent(w: World, after: World, b: nat)
    requires ContentsGrow(w, after) && HasContent(w.contents, b)
    ensures HasContent(after.contents, b)
  {
    var c :| 0 <= c < |w.contents| && w.contents[c].blueprint == b;
    assert after.contents[c].blueprint == b;
  }

  lemma FanOutOneContents(w: World, b: nat)
    requires b < |w.blueprints|
    ensures ContentsGrow(w, FanOutOne(w, b)) && HasContent(FanOutOne(w, b).contents, b)
  {
    var (w1, c) := WithContent(w, b);
    var after := FanOutOne(w, b);
    assert after.contents == w1.contents && w1.contents[c].blueprint == b;
  }

  lemma GrowsOn(w: World, before: World, after: World)
    requires ContentsGrow(w, before) && ContentsGrow(before, after)
    ensures ContentsGrow(w, after)
  {
  }

  /** What the next blueprint does to the contents. */
  lemma FanOutNext(w: World, order: nat, n: nat)
    requires n < |w.blueprints|
    ensures ContentsGrow(FanOut(w, order, n), FanOut(w, order, n + 1))
    ensures w.blueprints[n].order == order ==> HasContent(FanOut(w, order, n + 1).contents, n)
  {
    var before := FanOut(w, order, n);
    FanOutOneContents(before, n);
    assert FanOut(w, order, n + 1) == if w.blueprints[n].order == order then FanOutOne(before, n) else before;
  }

  lemma {:induction false} FanOutGrows(w: World, order: nat, from: nat, upTo: nat)
    requires from <= upTo <= |w.blueprints|
    ensures ContentsGrow(FanOut(w, order, from), FanOut(w, order, upTo))
    decreases upTo
  {
    if from < upTo {
      FanOutGrows(w, order, from, upTo - 1);
      FanOutNext(w, order, upTo - 1);
      GrowsOn(FanOut(w, order, from), FanOut(w, order, upTo - 1), FanOut(w, order, upTo));
    }
  }

  lemma FanOutReachesOne(w: World, order: nat, upTo: nat, b: nat)
    requires b < upTo <= |w.blueprints| && w.blueprints[b].order == order
    ensures HasContent(FanOut(w, order, upTo).contents, b)
  {
    FanOutNext(w, order, b);
    FanOutGrows(w, order, b + 1, upTo);
    GrownHasContent(FanOut(w, order, b + 1), FanOut(w, order, upTo), b);
  }

  lemma FanOutReaches(w: World, order: nat, upTo: nat)
    requires upTo <= |w.blueprints|
    ensures ContentsGrow(w, FanOut(w, order, upTo))
    ensures forall b :: 0 <= b < upTo && w.blueprints[b].order == order ==>
        HasContent(FanOut(w, order, upTo).contents, b)
  {
    FanOutGrows(w, order, 0, upTo);
    forall b | 0 <= b < upTo && w.blueprints[b].order == order ensures HasContent(FanOut(w, order, upTo).contents, b) {
      FanOutReachesOne(w, order, upTo, b);
    }
  }

  /** Same contents, same scenes, same set of task rows. */
  ghost predicate SameRowSet(w: World, after: World) {
    after.contents == w.contents && after.scenes == w.scenes && after.tasks.Keys == w.tasks.Keys
  }

  lemma FanOutOneAgain(w: World, b: nat)
    requires TablesFit(w) && b < |w.blueprints| && HasContent(w.contents, b)
    ensures SameRowSet(w, FanOutOne(w, b))
  {
    var (w1, c) := WithContent(w, b);
    WithContentFits(w, b);
    assert w1 == w && ContentFits(w, c) && FullyBuilt(w, c);
    if w.blueprints[b].video {
      FanOutOneVideo(w, b);
      assert SceneKeys(w.scenes, c, 1, |w.scenes|) <= w.tasks.Keys;
    } else {
      CreateEffect(w, ImageKey(c, 1), w.blueprints[b].order);
    }
  }

  lemma {:induction false} FanOutAgain(w: World, order: nat, upTo: nat)
    requires TablesFit(w) && upTo <= |w.blueprints| && FannedOut(w, order)
    ensures SameRowSet(w, FanOut(w, order, upTo))
    decreases upTo
  {
    if upTo > 0 {
      FanOutAgain(w, order, upTo - 1);
      var before := FanOut(w, order, upTo - 1);
      if w.blueprints[upTo - 1].order == order {
        FanOutFits(w, order, upTo - 1);
        FanOutOneAgain(before, upTo - 1);
        assert FanOut(w, order, upTo) == FanOutOne(before, upTo - 1);
      } else {
        assert FanOut(w, order, upTo) == before;
      }
    }
  }

  /** Delivering a blueprint completion fans the order out. */
  lemma DeliveryFansOut(w: World, k: Key, approve: bool, ack: bool)
    requires Shape(w) && DoneNotice(k) in w.notices && k.kind.Blueprint?
    ensures k in w.tasks && FannedOut(Apply(w, DeliverDoneStep(k, approve, ack)), w.tasks[k].order)
  {
    FanOutReaches(Drop(w, DoneNotice(k), ack), w.tasks[k].order, |w.blueprints|);
  }

  lemma OnTaskDoneGrows(w: World, k: Key, approve: bool)
    ensures ContentsGrow(w, OnTaskDone(w, k, approve)) && OnTaskDone(w, k, approve).blueprints == w.blueprints
  {
    if k in w.tasks && k.kind.Blueprint? {
      FanOutReaches(w, w.tasks[k].order, |w.blueprints|);
    }
  }

  /** Nothing but a new blueprint of the order undoes it. */
  lemma FannedOutStep(w: World, s: Step, order: nat)
    requires Enabled(w, s) && FannedOut(w, order)
    requires !(s.BlueprintStep? && s.row.order == order)
    ensures FannedOut(Apply(w, s), order)
  {
    var after := Apply(w, s);
    if s.DeliverDoneStep? {
      OnTaskDoneGrows(Drop(w, DoneNotice(s.key), s.ack), s.key, s.approve);
    } else if !s.SubmitStep? && !s.RequestStep? {
      OtherStepKeepsRows(w, s);
    }
    assert ContentsGrow(w, after);
    forall b | 0 <= b < |after.blueprints| && after.blueprints[b].order == order ensures HasContent(after.contents, b) {
      OnlyNewBlueprint(w, s, b);
      GrownHasContent(w, after, b);
    }
  }

  lemma OnlyNewBlueprint(w: World, s: Step, b: nat)
    requires Enabled(w, s) && b < |Apply(w, s).blueprints|
    ensures if s.BlueprintStep? && b == |w.blueprints| then Apply(w, s).blueprints[b] == s.row
            else b < |w.blueprints| && Apply(w, s).blueprints[b] == w.blueprints[b]
  {
    if !s.BlueprintStep? { BlueprintsStay(w, s); }
  }

  lemma BlueprintsStay(w: World, s: Step)
    requires Enabled(w, s) && !s.BlueprintStep?
    ensures Apply(w, s).blueprints == w.blueprints
  {
    if s.DeliverDoneStep? {
      OnTaskDoneGrows(Drop(w, DoneNotice(s.key), s.ack), s.key, s.approve);
    } else if s.TakeJobStep? {
      TakeJobBlueprints(w, s.key, s.redeliver);
    } else if s.DeliverFailedStep? {
      HandleBlueprints(Drop(w, FailNotice(s.key, s.failure), s.ack), s.key, s.failure);
    }
  }

  lemma TakeJobBlueprints(w: World, k: Key, redeliver: bool)
    ensures TakeJob(w, k, redeliver).blueprints == w.blueprints
  {
    if k in w.tasks && Waiting(w.tasks[k].state) {
      var _ := StartRunEffect(if redeliver then w else w.(jobs := w.jobs - multiset{k}), k);
    }
  }

  lemma HandleBlueprints(w: World, k: Key, f: FailureClass)
    ensures Handle(w, k, f).blueprints == w.blueprints
  {
  }

  ghost predicate NoNewBlueprint(steps: seq<Step>, order: nat) {
    forall i :: 0 <= i < |steps| ==> !(steps[i].BlueprintStep? && steps[i].row.order == order)
  }

  lemma {:induction false} FannedOutRun(w: World, steps: seq<Step>, order: nat)
    requires ValidRun(w, steps) && FannedOut(w, order) && NoNewBlueprint(steps, order)
    ensures FannedOut(After(w, steps), order)
    decreases |steps|
  {
    if |steps| > 0 {
      FannedOutStep(w, steps[0], order);
      assert NoNewBlueprint(steps[1..], order);
      FannedOutRun(Apply(w, steps[0]), steps[1..], order);
    }
  }

  /** Whatever happens to a fanned-out order, delivering again adds no content, scene or task row. */
  lemma RedeliveryAddsNoRows(w: World, steps: seq<Step>, k: Key, approve: bool, ack: bool)
    requires Shape(w) && ValidRun(w, steps) && k in w.tasks && k.kind.Blueprint?
    requires FannedOut(w, w.tasks[k].order) && NoNewBlueprint(steps, w.tasks[k].order)
    requires DoneNotice(k) in After(w, steps).notices
    ensures SameRowSet(After(w, steps), Apply(After(w, steps), DeliverDoneStep(k, approve, ack)))
  {
    ShapeRun(w, steps);
    FannedOutRun(w, steps, w.tasks[k].order);
    ConstantsKept(w, steps);
    DeliverAgain(After(w, steps), k, approve, ack);
  }

  /** From the empty world: after any run, one delivery and any further run, a second delivery adds no row. */
  lemma SecondDeliveryAddsNoRows(before: seq<Step>, steps: seq<Step>, maxQcAttempts: nat, k: Key,
                                 first: Step, second: Step)
    requires ValidRun(Initial(maxQcAttempts), before) && k.kind.Blueprint?
    requires first.DeliverDoneStep? && first.key == k && second.DeliverDoneStep? && second.key == k
    requires var w := After(Initial(maxQcAttempts), before);
      && DoneNotice(k) in w.notices && ValidRun(Apply(w, first), steps)
      && k in w.tasks && NoNewBlueprint(steps, w.tasks[k].order)
      && DoneNotice(k) in After(Apply(w, first), steps).notices
    ensures var v := After(Apply(After(Initial(maxQcAttempts), before), first), steps);
      SameRowSet(v, Apply(v, second))
  {
    var w := After(Initial(maxQcAttempts), before);
    InitialShape(maxQcAttempts);
    ShapeRun(Initial(maxQcAttempts), before);
    DeliveryFansOut(w, k, first.approve, first.ack);
    ShapeStep(w, first);
    StepKeepsConstants(w, first);
    RedeliveryAddsNoRows(Apply(w, first), steps, k, second.approve, second.ack);
  }

  /** Delivering a blueprint completion of a fanned-out order. */
  lemma DeliverAgain(w: World, k: Key, approve: bool, ack: bool)
    requires Shape(w) && k in w.tasks && k.kind.Blueprint? && FannedOut(w, w.tasks[k].order)
    requires DoneNotice(k) in w.notices
    ensures SameRowSet(w, Apply(w, DeliverDoneStep(k, approve, ack)))
  {
    var dropped := Drop(w, DoneNotice(k), ack);
    SameRowsKeepTables(w, dropped);
    FanOutAgain(dropped, w.tasks[k].order, |w.blueprints|);
    assert Apply(w, DeliverDoneStep(k, approve, ack)) == FanOut(dropped, w.tasks[k].order, |w.blueprints|);
  }

  /** The first-attempt generation rows of a content. */
  ghost function FirstGeneration(w: World, c: nat): set<Key> {
    set k | k in w.tasks && (k.kind.GenerateVideo? || k.kind.GenerateImage?) && k.target == OfContent(c)
        && k.attempt == 1
  }

  /** What fan-out asks for: one row per scene, or one for the image. */
  ghost function AskedFor(w: World, c: nat): set<Key>
    requires c < |w.contents|
  {
    if w.contents[c].video then SceneKeys(w.scenes, c, 1, |w.scenes|) else {ImageKey(c, 1)}
  }

  /** Exactly one content per blueprint, one scene per planned number, one generation row per scene or image. */
  lemma ExactlyOnce(w: World, order: nat, b: nat) returns (c: nat)
    requires Shape(w) && FannedOut(w, order) && b < |w.blueprints| && w.blueprints[b].order == order
    ensures c < |w.contents| && w.contents[c].blueprint == b && w.contents[c].video == w.blueprints[b].video
    ensures forall d :: 0 <= d < |w.contents| && w.contents[d].blueprint == b ==> d == c
    ensures w.blueprints[b].video ==>
      && (forall n :: 1 <= n <= w.blueprints[b].planLength ==> HasScene(w, c, n))
      && (forall s :: 0 <= s < |w.scenes| && w.scenes[s].content == c ==>
          1 <= w.scenes[s].number <= w.blueprints[b].planLength)
      && (forall s, t :: (0 <= s < |w.scenes| && 0 <= t < |w.scenes| && w.scenes[s].content == c
          && w.scenes[t].content == c
            && w.scenes[s].number == w.scenes[t].number) ==> s == t)
    ensures AskedFor(w, c) <= FirstGeneration(w, c)
    ensures forall k :: k in FirstGeneration(w, c) && Natural(w, k) ==> k in AskedFor(w, c)
  {
    assert HasContent(w.contents, b);
    c :| 0 <= c < |w.contents| && w.contents[c].blueprint == b;
    assert ContentFits(w, c) && FullyBuilt(w, c);
    NaturalFirstGeneration(w, c);
  }

  lemma NaturalFirstGeneration(w: World, c: nat)
    requires c < |w.contents|
    ensures forall k :: k in FirstGeneration(w, c) && Natural(w, k) ==> k in AskedFor(w, c)
  {
    forall k | k in FirstGeneration(w, c) && Natural(w, k) ensures k in AskedFor(w, c) {
      if k.kind.GenerateVideo? { assert k == VideoKey(c, k.scene.value, 1); }
    }
  }

  /** In every reachable world those are all the first generation rows, apart from rows asked for by hand. */
  lemma FirstGenerationIsAskedFor(steps: seq<Step>, maxQcAttempts: nat, c: nat)
    requires ValidRun(Initial(maxQcAttempts), steps) && c < |After(Initial(maxQcAttempts), steps).contents|
    ensures var w := After(Initial(maxQcAttempts), steps);
      AskedFor(w, c) <= FirstGeneration(w, c) <= AskedFor(w, c) + Requested(steps)
  {
    var w := After(Initial(maxQcAttempts), steps);
    InitialShape(maxQcAttempts);
    ShapeRun(Initial(maxQcAttempts), steps);
    assert FullyBuilt(w, c);
    NaturalFirstGeneration(w, c);
    forall k | k in FirstGeneration(w, c) && !Natural(w, k) ensures k in Requested(steps) {
      OddRowsAreByHand(steps, maxQcAttempts, k);
    }
  }

  // ---------- automatic regeneration ----------

  /** The rows of one module for one content or scene, over all attempts up to `top`. */
  ghost function AttemptRows(w: World, kind: Kind, target: Target, scene: Option<nat>, top: nat): set<Key> {
    set k | k in w.tasks && k.kind == kind && k.target == target && k.scene == scene && 1 <= k.attempt <= top
  }

  lemma {:induction false} AttemptRowsCount(w: World, kind: Kind, target: Target, scene: Option<nat>, top: nat)
    ensures |AttemptRows(w, kind, target, scene, top)| <= top
    decreases top
  {
    var rows := AttemptRows(w, kind, target, scene, top);
    if top == 0 {
      assert rows == {};
    } else {
      AttemptRowsCount(w, kind, target, scene, top - 1);
      assert rows <= AttemptRows(w, kind, target, scene, top - 1) + {Key(kind, target, scene, top)};
      SubsetSize(rows, AttemptRows(w, kind, target, scene, top - 1) + {Key(kind, target, scene, top)});
    }
  }

  lemma {:induction false} SubsetSize<T>(a: set<T>, b: set<T>)
    requires a <= b
    ensures |a| <= |b|
  {
    if a != {} {
      var x :| x in a;
      SubsetSize(a - {x}, b - {x});
    }
  }

  /** The rows of one module for one content or scene. */
  ghost function ModuleRows(w: World, kind: Kind, target: Target, scene: Option<nat>): set<Key> {
    set k | k in w.tasks && k.kind == kind && k.target == target && k.scene == scene
  }

  /** The rows for it that were asked for by hand, with an attempt beyond the limit. */
  ghost function BeyondLimit(steps: seq<Step>, limit: nat, kind: Kind, target: Target, scene: Option<nat>): set<Key> {
    set k | k in Requested(steps) && k.kind == kind && k.target == target && k.scene == scene && k.attempt > limit
  }

  /**
   * However often QC notices are redelivered, a module has at most max(1, maxQcAttempts) rows per
   * content and scene, and one more for each attempt beyond that which was asked for by hand.
   */
  lemma RegenerationIsBounded(steps: seq<Step>, maxQcAttempts: nat, kind: Kind, target: Target, scene: Option<nat>)
    requires ValidRun(Initial(maxQcAttempts), steps)
    requires kind.GenerateImage? || kind.GenerateVideo? || kind.Render?
    ensures var limit := if maxQcAttempts < 1 then 1 else maxQcAttempts;
      |ModuleRows(After(Initial(maxQcAttempts), steps), kind, target, scene)|
        <= limit + |BeyondLimit(steps, limit, kind, target, scene)|
  {
    var w := After(Initial(maxQcAttempts), steps);
    InitialShape(maxQcAttempts);
    ConstantsKept(Initial(maxQcAttempts), steps);
    AttemptsFromOne(Initial(maxQcAttempts), steps);
    var limit := MaxAttempt(w);
    var within, beyond := AttemptRows(w, kind, target, scene, limit), BeyondLimit(steps, limit, kind, target, scene);
    forall k | k in ModuleRows(w, kind, target, scene) ensures k in within + beyond {
      assert k.attempt >= 1;
      if k.attempt > limit { OddRowsAreByHand(steps, maxQcAttempts, k); }
    }
    AttemptRowsCount(w, kind, target, scene, limit);
    SubsetSize(ModuleRows(w, kind, target, scene), within + beyond);
  }

  /** Attempts are counted from one. */
  lemma {:induction false} AttemptsFromOne(w: World, steps: seq<Step>)
    requires Shape(w) && ValidRun(w, steps) && forall k :: k in w.tasks ==> k.attempt >= 1
    ensures forall k :: k in After(w, steps).tasks ==> k.attempt >= 1
    decreases |steps|
  {
    if |steps| > 0 {
      var after := Apply(w, steps[0]);
      forall k | k in after.tasks ensures k.attempt >= 1 {
        if k !in w.tasks { AddedRow(w, steps[0], k); }
      }
      ShapeStep(w, steps[0]);
      AttemptsFromOne(after, steps[1..]);
    }
  }

  /** The configured limit and each row's order never change. */
  lemma {:induction false} ConstantsKept(w: World, steps: seq<Step>)
    requires ValidRun(w, steps)
    ensures After(w, steps).maxQcAttempts == w.maxQcAttempts
    ensures forall k :: k in w.tasks ==>
        k in After(w, steps).tasks && After(w, steps).tasks[k].order == w.tasks[k].order
    decreases |steps|
  {
    if |steps| > 0 {
      StepKeepsConstants(w, steps[0]);
      ConstantsKept(Apply(w, steps[0]), steps[1..]);
    }
  }

  lemma RequestKeepsConstants(w: World, k: Key, order: nat)
    ensures CreateTask(w, k, order).maxQcAttempts == w.maxQcAttempts
    ensures forall j :: j in w.tasks ==>
              j in CreateTask(w, k, order).tasks && CreateTask(w, k, order).tasks[j].order == w.tasks[j].order
  {
  }

  lemma StepKeepsConstants(w: World, s: Step)
    requires Enabled(w, s)
    ensures Apply(w, s).maxQcAttempts == w.maxQcAttempts
    ensures forall k :: k in w.tasks ==> k in Apply(w, s).tasks && Apply(w, s).tasks[k].order == w.tasks[k].order
  {
    if s.DeliverDoneStep? {
      OnTaskDoneKeeps(Drop(w, DoneNotice(s.key), s.ack), s.key, s.approve);
    } else if s.SubmitStep? {
      RequestKeepsConstants(w, Key(Selection, OfOrder(s.order), None, 1), s.order);
    } else if s.RequestStep? {
      RequestKeepsConstants(w, s.key, s.order);
    } else {
      OtherStepKeepsRows(w, s);
    }
  }
}
