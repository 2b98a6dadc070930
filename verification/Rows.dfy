/**
 * The shape of the tables, which every step keeps: one content per blueprint, one scene per planned
 * number and one first generation task each.  And which task rows can exist beside those that
 * operators ask for by hand.
 */
module Rows {
  import opened Wrappers
  import opened TaskStates
  import opened Lifecycle
  import opened Spawning
  import opened NoStranded

  /** The largest attempt number an automatic regeneration can ask for. */
  function MaxAttempt(w: World): nat {
    if w.maxQcAttempts < 1 then 1 else w.maxQcAttempts
  }

  /** The content and the scene that a key names are there, and the scene is one of the content. */
  ghost predicate NamesRows(w: World, k: Key) {
    match k.target
    case OfOrder(_) => k.scene.None?
    case OfContent(c) =>
      c < |w.contents| && (k.scene.Some? ==> k.scene.value < |w.scenes| && w.scenes[k.scene.value].content == c)
  }

  /** A key such as the pipeline itself asks for. */
  ghost predicate Natural(w: World, k: Key) {
    && k.attempt >= 1
    && (k.kind.Selection? || k.kind.Blueprint? ==> k.target.OfOrder? && k.scene.None?)
    && (!(k.kind.Selection? || k.kind.Blueprint?) ==> k.target.OfContent? && k.target.content < |w.contents|)
    && (k.kind.GenerateVideo? ==>
          k.scene.Some? && k.scene.value < |w.scenes| && w.scenes[k.scene.value].content == k.target.content)
    && (!k.kind.GenerateVideo? ==> k.scene.None?)
    && (k.kind.GenerateVideo? || k.kind.Render? ==> w.contents[k.target.content].video)
    && (k.kind.GenerateImage? ==> !w.contents[k.target.content].video)
    && (k.kind.GenerateVideo? || k.kind.GenerateImage? || k.kind.Render? ==> k.attempt <= MaxAttempt(w))
  }

  /** Everything past the first generation round of a video. */
  ghost predicate LaterStage(w: World, k: Key) {
    && k.target.OfContent? && k.target.content < |w.contents| && w.contents[k.target.content].video
    && (k.kind.Qc? || k.kind.Publish? || k.attempt > 1)
  }

  /** A natural key, and past the first round there is a RENDER task. */
  ghost predicate KeyFits(w: World, k: Key) {
    Natural(w, k) && (LaterStage(w, k) ==> RenderKey(k.target.content, 1) in w.tasks)
  }

  /** Every row names rows that exist, and those of content c fit; other contents may have any. */
  ghost predicate KeysFitAt(w: World, c: nat) {
    && (forall k :: k in w.tasks ==> NamesRows(w, k))
    && (forall k :: k in w.tasks && k.target == OfContent(c) ==> KeyFits(w, k))
  }

  ghost predicate ContentFits(w: World, c: nat)
    requires c < |w.contents|
  {
    var row := w.contents[c];
    && row.blueprint < |w.blueprints|
    && row.video == w.blueprints[row.blueprint].video
    && row.order == w.blueprints[row.blueprint].order
  }

  ghost predicate SceneFits(w: World, s: nat)
    requires s < |w.scenes|
  {
    w.scenes[s].content < |w.contents| && w.contents[w.scenes[s].content].video
  }

  ghost predicate UniqueContents(contents: seq<ContentRow>) {
    forall c, d :: 0 <= c < |contents| && 0 <= d < |contents| && contents[c].blueprint == contents[d].blueprint ==>
        c == d
  }

  ghost predicate UniqueScenes(scenes: seq<SceneRow>) {
    forall s, t ::
      (0 <= s < |scenes| && 0 <= t < |scenes|
       && scenes[s].content == scenes[t].content && scenes[s].number == scenes[t].number) ==> s == t
  }

  ghost predicate HasScene(w: World, c: nat, number: nat) {
    exists s :: 0 <= s < |w.scenes| && w.scenes[s].content == c && w.scenes[s].number == number
  }

  /** Content c has everything its blueprint asks for. */
  ghost predicate FullyBuilt(w: World, c: nat)
    requires c < |w.contents|
  {
    if w.contents[c].video then
      && w.contents[c].blueprint < |w.blueprints|
      && (forall n :: 1 <= n <= w.blueprints[w.contents[c].blueprint].planLength ==> HasScene(w, c, n))
      && (forall s :: 0 <= s < |w.scenes| && w.scenes[s].content == c ==>
            VideoKey(c, s, 1) in w.tasks && 1 <= w.scenes[s].number <= w.blueprints[w.contents[c].blueprint].planLength)
    else
      ImageKey(c, 1) in w.tasks
  }

  ghost predicate TablesFit(w: World) {
    && (forall c :: 0 <= c < |w.contents| ==> ContentFits(w, c) && FullyBuilt(w, c))
    && (forall s :: 0 <= s < |w.scenes| ==> SceneFits(w, s))
    && UniqueContents(w.contents)
    && UniqueScenes(w.scenes)
  }

  ghost predicate MessagesFit(w: World) {
    && (forall k :: DoneNotice(k) in w.notices ==> k in w.tasks && w.tasks[k].state.Done?)
    && (forall k, f :: FailNotice(k, f) in w.notices ==> k in w.tasks)
    && (forall k, p :: Run(k, p) in w.runs ==> k in w.tasks)
  }

  ghost predicate Shape(w: World) {
    TablesFit(w) && MessagesFit(w)
  }

  /** Rows are only added; contents and scenes keep what identifies them. */
  ghost predicate Extends(w: World, after: World) {
    && w.tasks.Keys <= after.tasks.Keys
    && |w.contents| <= |after.contents|
    && (forall c :: 0 <= c < |w.contents| ==>
          after.contents[c].blueprint == w.contents[c].blueprint
          && after.contents[c].order == w.contents[c].order
          && after.contents[c].video == w.contents[c].video)
    && |w.scenes| <= |after.scenes|
    && (forall s :: 0 <= s < |w.scenes| ==>
          after.scenes[s].content == w.scenes[s].content && after.scenes[s].number == w.scenes[s].number)
    && after.maxQcAttempts == w.maxQcAttempts
  }

  lemma ExtendedKey(w: World, after: World, k: Key)
    requires Extends(w, after)
    ensures NamesRows(w, k) ==> NamesRows(after, k)
    ensures Natural(w, k) ==> Natural(after, k)
    ensures KeyFits(w, k) ==> KeyFits(after, k)
  {
  }

  lemma ExtendsOn(w: World, before: World, after: World)
    requires Extends(w, before) && Extends(before, after)
    ensures Extends(w, after)
  {
  }

  lemma NaturalNamesRows(w: World, k: Key)
    requires Natural(w, k)
    ensures NamesRows(w, k)
  {
  }

  /** No row appears; contents and scenes keep what identifies them; nothing becomes or stops being DONE. */
  ghost predicate SameRows(w: World, after: World) {
    && after.tasks.Keys == w.tasks.Keys
    && (forall k :: k in w.tasks ==> after.tasks[k].order == w.tasks[k].order)
    && |after.contents| == |w.contents|
    && (forall c :: 0 <= c < |w.contents| ==>
          after.contents[c].blueprint == w.contents[c].blueprint
          && after.contents[c].order == w.contents[c].order
          && after.contents[c].video == w.contents[c].video)
    && |after.scenes| == |w.scenes|
    && (forall s :: 0 <= s < |w.scenes| ==>
          after.scenes[s].content == w.scenes[s].content && after.scenes[s].number == w.scenes[s].number)
    && w.blueprints <= after.blueprints
    && after.maxQcAttempts == w.maxQcAttempts
  }

  lemma SameRowsKeepTables(w: World, after: World)
    requires TablesFit(w) && SameRows(w, after)
    ensures TablesFit(after) && Extends(w, after)
  {
    forall c | 0 <= c < |after.contents| ensures ContentFits(after, c) && FullyBuilt(after, c) {
      assert ContentFits(w, c) && FullyBuilt(w, c);
      if w.contents[c].video {
        forall n | 1 <= n <= w.blueprints[w.contents[c].blueprint].planLength ensures HasScene(after, c, n) {
          assert HasScene(w, c, n);
        }
      }
    }
    forall s | 0 <= s < |after.scenes| ensures SceneFits(after, s) {
      assert SceneFits(w, s);
    }
  }

  // ---------- createTask ----------

  /** A `createTask` leaves other rows alone, never touches DONE, runs or notices. */
  lemma CreateEffect(w: World, k: Key, order: nat)
    ensures var after := CreateTask(w, k, order);
      && after.tasks.Keys == w.tasks.Keys + {k}
      && (forall j :: j in w.tasks ==> (after.tasks[j].state.Done? <==> w.tasks[j].state.Done?))
      && (forall j :: j in w.tasks ==> after.tasks[j].order == w.tasks[j].order)
      && (k !in w.tasks ==> after.tasks[k].state.Queued?)
      && after.runs == w.runs && after.notices == w.notices
      && after.contents == w.contents && after.scenes == w.scenes && after.blueprints == w.blueprints
      && after.maxQcAttempts == w.maxQcAttempts
  {
  }

  ghost function SceneKeys(scenes: seq<SceneRow>, c: nat, attempt: nat, upTo: nat): set<Key>
    requires upTo <= |scenes|
  {
    set s | 0 <= s < upTo && scenes[s].content == c :: VideoKey(c, s, attempt)
  }

  lemma SceneTasksEffect(w: World, c: nat, order: nat, attempt: nat, upTo: nat)
    requires upTo <= |w.scenes|
    ensures var after := CreateSceneTasks(w, c, order, attempt, upTo);
      && after.tasks.Keys == w.tasks.Keys + SceneKeys(w.scenes, c, attempt, upTo)
      && (forall j :: j in w.tasks ==> (after.tasks[j].state.Done? <==> w.tasks[j].state.Done?))
      && (forall j :: j in after.tasks && j !in w.tasks ==> !after.tasks[j].state.Done?)
      && after.runs == w.runs && after.notices == w.notices
      && after.maxQcAttempts == w.maxQcAttempts
  {
    SceneTasksKeys(w, c, order, attempt, upTo);
    SceneTasksKeepDone(w, c, order, attempt, upTo);
  }

  lemma {:induction false} SceneTasksKeys(w: World, c: nat, order: nat, attempt: nat, upTo: nat)
    requires upTo <= |w.scenes|
    ensures CreateSceneTasks(w, c, order, attempt, upTo).tasks.Keys
         == w.tasks.Keys + SceneKeys(w.scenes, c, attempt, upTo)
    decreases upTo
  {
    if upTo > 0 {
      SceneTasksKeys(w, c, order, attempt, upTo - 1);
      SceneKeysNext(w.scenes, c, attempt, upTo - 1);
      if w.scenes[upTo - 1].content == c {
        CreateEffect(CreateSceneTasks(w, c, order, attempt, upTo - 1), VideoKey(c, upTo - 1, attempt), order);
      }
    }
  }

  lemma {:induction false} SceneTasksKeepDone(w: World, c: nat, order: nat, attempt: nat, upTo: nat)
    requires upTo <= |w.scenes|
    ensures var after := CreateSceneTasks(w, c, order, attempt, upTo);
      && w.tasks.Keys <= after.tasks.Keys
      && (forall j :: j in w.tasks ==> (after.tasks[j].state.Done? <==> w.tasks[j].state.Done?))
      && (forall j :: j in after.tasks && j !in w.tasks ==> !after.tasks[j].state.Done?)
      && after.runs == w.runs && after.notices == w.notices
      && after.maxQcAttempts == w.maxQcAttempts
    decreases upTo
  {
    if upTo > 0 {
      SceneTasksKeepDone(w, c, order, attempt, upTo - 1);
      if w.scenes[upTo - 1].content == c {
        CreateEffect(CreateSceneTasks(w, c, order, attempt, upTo - 1), VideoKey(c, upTo - 1, attempt), order);
      }
    }
  }

  lemma SceneKeysNext(scenes: seq<SceneRow>, c: nat, attempt: nat, n: nat)
    requires n < |scenes|
    ensures SceneKeys(scenes, c, attempt, n + 1)
         == SceneKeys(scenes, c, attempt, n) + if scenes[n].content == c then {VideoKey(c, n, attempt)} else {}
  {
  }

  // ---------- scenes ----------

  ghost predicate NumberIn(scenes: seq<SceneRow>, c: nat, number: nat) {
    exists s :: 0 <= s < |scenes| && scenes[s].content == c && scenes[s].number == number
  }

  ghost predicate Materialized(scenes: seq<SceneRow>, after: seq<SceneRow>, c: nat, upTo: nat) {
    && scenes <= after
    && UniqueScenes(after)
    && (forall s :: |scenes| <= s < |after| ==> after[s].content == c && 1 <= after[s].number <= upTo)
    && (forall n :: 1 <= n <= upTo ==> NumberIn(after, c, n))
  }

  lemma MaterializedNext(scenes: seq<SceneRow>, before: seq<SceneRow>, c: nat, upTo: nat)
    requires upTo > 0 && Materialized(scenes, before, c, upTo - 1)
    ensures NumberIn(before, c, upTo) ==> Materialized(scenes, before, c, upTo)
    ensures !NumberIn(before, c, upTo) ==> Materialized(scenes, before + [SceneRow(c, upTo, Pending)], c, upTo)
  {
    if !NumberIn(before, c, upTo) {
      var after := before + [SceneRow(c, upTo, Pending)];
      assert after[|before|] == SceneRow(c, upTo, Pending);
      forall n | 1 <= n <= upTo ensures NumberIn(after, c, n) {
        if n < upTo {
          assert NumberIn(before, c, n);
          var s :| 0 <= s < |before| && before[s].content == c && before[s].number == n;
          assert after[s] == before[s];
        }
      }
      assert forall s :: 0 <= s < |before| ==>
          after[s] == before[s] && !(before[s].content == c && before[s].number == upTo);
      assert UniqueScenes(after);
    }
  }

  lemma {:induction false} MaterializeEffect(scenes: seq<SceneRow>, c: nat, upTo: nat)
    requires UniqueScenes(scenes)
    ensures Materialized(scenes, Materialize(scenes, c, upTo), c, upTo)
    decreases upTo
  {
    if upTo > 0 {
      MaterializeEffect(scenes, c, upTo - 1);
      var before := Materialize(scenes, c, upTo - 1);
      MaterializedNext(scenes, before, c, upTo);
      assert FindScene(before, c, upTo).Some? <==> NumberIn(before, c, upTo);
    }
  }

  lemma {:induction false} MaterializeNothing(scenes: seq<SceneRow>, c: nat, upTo: nat)
    requires forall n :: 1 <= n <= upTo ==> NumberIn(scenes, c, n)
    ensures Materialize(scenes, c, upTo) == scenes
    decreases upTo
  {
    if upTo > 0 {
      MaterializeNothing(scenes, c, upTo - 1);
      assert NumberIn(scenes, c, upTo);
    }
  }

  // ---------- fan-out ----------

  /** Content c of the world `after` is built, and everything `w` had is still there. */
  lemma FanOutOneVideo(w: World, b: nat)
    requires TablesFit(w) && b < |w.blueprints| && w.blueprints[b].video
    ensures var (w1, c) := WithContent(w, b);
      var scenes := Materialize(w1.scenes, c, w.blueprints[b].planLength);
      var after := FanOutOne(w, b);
      && after.contents == w1.contents && after.scenes == scenes
      && Materialized(w.scenes, scenes, c, w.blueprints[b].planLength)
      && (c < |w.contents| ==> scenes == w.scenes)
      && after.tasks.Keys == w.tasks.Keys + SceneKeys(scenes, c, 1, |scenes|)
      && (forall j :: j in w.tasks ==> (after.tasks[j].state.Done? <==> w.tasks[j].state.Done?))
      && (forall j :: j in after.tasks && j !in w.tasks ==> !after.tasks[j].state.Done?)
      && after.runs == w.runs && after.notices == w.notices
      && after.blueprints == w.blueprints && after.maxQcAttempts == w.maxQcAttempts
  {
    var (w1, c) := WithContent(w, b);
    var n := w.blueprints[b].planLength;
    MaterializeEffect(w1.scenes, c, n);
    if c < |w.contents| {
      assert FullyBuilt(w, c) && ContentFits(w, c);
      forall m | 1 <= m <= n ensures NumberIn(w.scenes, c, m) { assert HasScene(w, c, m); }
      MaterializeNothing(w.scenes, c, n);
    }
    var w2 := w1.(scenes := Materialize(w1.scenes, c, n));
    SceneTasksEffect(w2, c, w.blueprints[b].order, 1, |w2.scenes|);
  }

  lemma WithContentFits(w: World, b: nat)
    requires TablesFit(w) && b < |w.blueprints|
    ensures var (w1, c) := WithContent(w, b);
      && c < |w1.contents| && w1.contents[c].blueprint == b && w1.contents[c].video == w.blueprints[b].video
      && w.contents <= w1.contents && UniqueContents(w1.contents)
      && (c < |w.contents| ==> w1 == w)
      && var row := ContentRow(b, w.blueprints[b].order, w.blueprints[b].video, []);
         (c >= |w.contents| ==> c == |w.contents| && w1.contents == w.contents + [row])
  {
    var (w1, c) := WithContent(w, b);
    if c < |w.contents| { assert ContentFits(w, c); }
  }

  lemma GrownContentFits(w: World, after: World, c: nat)
    requires TablesFit(w) && c < |w.contents|
    requires w.tasks.Keys <= after.tasks.Keys && w.contents <= after.contents && w.scenes <= after.scenes
    requires after.blueprints == w.blueprints
    requires forall s :: |w.scenes| <= s < |after.scenes| ==> after.scenes[s].content != c
    ensures ContentFits(after, c) && FullyBuilt(after, c)
  {
    assert ContentFits(w, c) && FullyBuilt(w, c);
    assert after.contents[c] == w.contents[c];
    if w.contents[c].video {
      forall n | 1 <= n <= w.blueprints[w.contents[c].blueprint].planLength ensures HasScene(after, c, n) {
        assert HasScene(w, c, n);
        var s :| 0 <= s < |w.scenes| && w.scenes[s].content == c && w.scenes[s].number == n;
        assert after.scenes[s] == w.scenes[s];
      }
      forall s | 0 <= s < |after.scenes| && after.scenes[s].content == c
        ensures VideoKey(c, s, 1) in after.tasks
            && 1 <= after.scenes[s].number <= w.blueprints[w.contents[c].blueprint].planLength
      {
        assert s < |w.scenes| && after.scenes[s] == w.scenes[s];
      }
    }
  }

  lemma FanOutOneGrows(w: World, b: nat)
    requires TablesFit(w) && b < |w.blueprints|
    ensures var after := FanOutOne(w, b);
      && w.tasks.Keys <= after.tasks.Keys && w.contents <= after.contents && w.scenes <= after.scenes
      && after.blueprints == w.blueprints && after.maxQcAttempts == w.maxQcAttempts
  {
    var (w1, c) := WithContent(w, b);
    WithContentFits(w, b);
    if w.blueprints[b].video {
      FanOutOneVideo(w, b);
    } else {
      CreateEffect(w1, ImageKey(c, 1), w.blueprints[b].order);
    }
  }

  /** The rows fan-out adds are first generation rows. */
  ghost predicate FirstKey(w: World, k: Key) {
    Natural(w, k) && k.attempt == 1 && (k.kind.GenerateVideo? || k.kind.GenerateImage?)
  }

  /** Every row that `after` has beyond those of w is a first generation row. */
  ghost predicate AddsFirstKeys(w: World, after: World) {
    forall k :: k in after.tasks && k !in w.tasks ==> FirstKey(after, k)
  }

  lemma FanOutOneKeys(w: World, b: nat)
    requires TablesFit(w) && b < |w.blueprints|
    ensures AddsFirstKeys(w, FanOutOne(w, b))
  {
    var after := FanOutOne(w, b);
    var (w1, c) := WithContent(w, b);
    WithContentFits(w, b);
    if w.blueprints[b].video {
      FanOutOneVideo(w, b);
    } else {
      CreateEffect(w1, ImageKey(c, 1), w.blueprints[b].order);
    }
  }

  /** Every scene has its content, and no other content gets new scenes. */
  lemma FanOutOneSceneRows(w: World, b: nat)
    requires TablesFit(w) && b < |w.blueprints|
    ensures var after := FanOutOne(w, b);
      && UniqueScenes(after.scenes) && UniqueContents(after.contents)
      && (forall s :: 0 <= s < |after.scenes| ==> SceneFits(after, s))
      && (forall s :: |w.scenes| <= s < |after.scenes| ==> after.scenes[s].content >= |w.contents|)
  {
    var after := FanOutOne(w, b);
    FanOutOneGrows(w, b);
    WithContentFits(w, b);
    if w.blueprints[b].video { FanOutOneVideo(w, b); }
    forall s | 0 <= s < |after.scenes| ensures SceneFits(after, s) {
      if s < |w.scenes| {
        assert SceneFits(w, s) && after.scenes[s] == w.scenes[s];
        assert after.contents[w.scenes[s].content] == w.contents[w.scenes[s].content];
      }
    }
  }

  /** The new content, if there is one, is fully built. */
  lemma FanOutOneBuilds(w: World, b: nat)
    requires TablesFit(w) && b < |w.blueprints|
    ensures var after := FanOutOne(w, b);
      forall d :: |w.contents| <= d < |after.contents| ==> ContentFits(after, d) && FullyBuilt(after, d)
  {
    var after := FanOutOne(w, b);
    var (w1, c) := WithContent(w, b);
    FanOutOneGrows(w, b);
    WithContentFits(w, b);
    if c >= |w.contents| && w.blueprints[b].video {
      FanOutOneVideo(w, b);
      assert forall s :: 0 <= s < |w.scenes| ==> SceneFits(w, s) && after.scenes[s] == w.scenes[s];
      forall n | 1 <= n <= w.blueprints[b].planLength ensures HasScene(after, c, n) {
        assert NumberIn(after.scenes, c, n);
      }
      forall s | 0 <= s < |after.scenes| && after.scenes[s].content == c
        ensures VideoKey(c, s, 1) in after.tasks && 1 <= after.scenes[s].number <= w.blueprints[b].planLength
      {
        assert VideoKey(c, s, 1) in SceneKeys(after.scenes, c, 1, |after.scenes|);
      }
    }
  }

  lemma FanOutOneFits(w: World, b: nat)
    requires TablesFit(w) && b < |w.blueprints|
    ensures TablesFit(FanOutOne(w, b))
  {
    var after := FanOutOne(w, b);
    FanOutOneGrows(w, b);
    FanOutOneSceneRows(w, b);
    FanOutOneBuilds(w, b);
    forall d | 0 <= d < |after.contents| ensures ContentFits(after, d) && FullyBuilt(after, d) {
      if d < |w.contents| { GrownContentFits(w, after, d); }
    }
  }

  /** Fan-out keeps the tables fitting, and adds first generation rows only. */
  lemma {:induction false} FanOutFits(w: World, order: nat, upTo: nat)
    requires TablesFit(w) && upTo <= |w.blueprints|
    ensures var after := FanOut(w, order, upTo);
      TablesFit(after) && Extends(w, after) && AddsFirstKeys(w, after)
    decreases upTo
  {
    if upTo > 0 {
      var before, after := FanOut(w, order, upTo - 1), FanOut(w, order, upTo);
      FanOutFits(w, order, upTo - 1);
      FanOutNextFits(w, order, upTo - 1);
      ExtendsOn(w, before, after);
      AddsOn(w, before, after);
    }
  }

  lemma AddsOn(w: World, before: World, after: World)
    requires AddsFirstKeys(w, before) && AddsFirstKeys(before, after) && Extends(before, after)
    ensures AddsFirstKeys(w, after)
  {
    forall k | k in after.tasks && k !in w.tasks ensures FirstKey(after, k) {
      if k in before.tasks { ExtendedKey(before, after, k); }
    }
  }

  lemma FanOutNextFits(w: World, order: nat, n: nat)
    requires n < |w.blueprints| && TablesFit(FanOut(w, order, n))
    ensures var before, after := FanOut(w, order, n), FanOut(w, order, n + 1);
      TablesFit(after) && Extends(before, after) && AddsFirstKeys(before, after)
  {
    var before := FanOut(w, order, n);
    FanOutOneFits(before, n);
    FanOutOneGrows(before, n);
    FanOutOneKeys(before, n);
    assert FanOut(w, order, n + 1) == if w.blueprints[n].order == order then FanOutOne(before, n) else before;
  }

  // ---------- steps ----------

  lemma CreateFits(w: World, k: Key, order: nat)
    requires TablesFit(w)
    ensures TablesFit(CreateTask(w, k, order)) && Extends(w, CreateTask(w, k, order))
  {
    var after := CreateTask(w, k, order);
    CreateEffect(w, k, order);
    forall c | 0 <= c < |after.contents| ensures ContentFits(after, c) && FullyBuilt(after, c) {
      GrownContentFits(w, after, c);
    }
    forall s | 0 <= s < |after.scenes| ensures SceneFits(after, s) { assert SceneFits(w, s); }
  }

  /** Regenerating the scenes of a video: reopened, and one more task each. */
  lemma RegenerateFits(w: World, c: nat, order: nat, attempt: nat)
    requires TablesFit(w)
    ensures var after := CreateSceneTasks(w.(scenes := ReopenScenes(w.scenes, c)), c, order, attempt, |w.scenes|);
      TablesFit(after) && Extends(w, after)
  {
    var reopened := w.(scenes := ReopenScenes(w.scenes, c));
    SameRowsKeepTables(w, reopened);
    SceneTasksEffect(reopened, c, order, attempt, |w.scenes|);
    var after := CreateSceneTasks(reopened, c, order, attempt, |w.scenes|);
    forall d | 0 <= d < |after.contents| ensures ContentFits(after, d) && FullyBuilt(after, d) {
      GrownContentFits(reopened, after, d);
    }
    forall s | 0 <= s < |after.scenes| ensures SceneFits(after, s) { assert SceneFits(reopened, s); }
  }

  lemma OnTaskDoneFits(w: World, k: Key, approve: bool)
    requires TablesFit(w)
    ensures TablesFit(OnTaskDone(w, k, approve)) && Extends(w, OnTaskDone(w, k, approve))
  {
    if k in w.tasks {
      var order := w.tasks[k].order;
      if k.kind.Selection? {
        CreateFits(w, Key(Blueprint, OfOrder(order), None, 1), order);
      } else if k.kind.Blueprint? {
        FanOutFits(w, order, |w.blueprints|);
      } else if !k.kind.Publish? && k.target.OfContent? && k.target.content < |w.contents| {
        var c := k.target.content;
        if k.kind.GenerateVideo? { CreateFits(w, RenderKey(c, 1), order); }
        else if k.kind.Qc? { HandleQcFits(w, k, order, approve); }
        else { CreateFits(w, QcKey(c, |w.contents[c].qcResults| + 1), order); }
      }
    }
  }

  lemma HandleQcFits(w: World, k: Key, order: nat, approve: bool)
    requires TablesFit(w) && k.target.OfContent? && k.target.content < |w.contents|
    ensures TablesFit(HandleQc(w, k, order, approve)) && Extends(w, HandleQc(w, k, order, approve))
  {
    var c := k.target.content;
    var results := w.contents[c].qcResults;
    if |results| > 0 {
      var last := results[|results| - 1];
      if last.verdict.Pass? {
        CreateFits(w, PublishKey(c), order);
      } else if last.verdict.Fail? {
        RegeneratedFits(w, ModuleForRetryTarget(last.retryTarget, w.contents[c].video), c, order, |results| + 1);
      }
    }
  }

  lemma RegeneratedFits(w: World, kind: Kind, c: nat, order: nat, attempt: nat)
    requires TablesFit(w)
    ensures TablesFit(Regenerated(w, kind, c, order, attempt)) && Extends(w, Regenerated(w, kind, c, order, attempt))
  {
    if kind.GenerateVideo? {
      RegenerateFits(w, c, order, attempt);
    } else {
      CreateFits(w, Key(kind, OfContent(c), None, attempt), order);
    }
  }

  // ---------- the keys a completion creates ----------

  /** What a completion of `cause` may create: a natural key, past the first round only for its own content. */
  ghost predicate Follows(w: World, cause: Key, k: Key) {
    && Natural(w, k)
    && (LaterStage(w, k) ==>
          k.target == cause.target && (cause.kind.Qc? || cause.kind.Render? || cause.kind.GenerateImage?))
  }

  lemma RegeneratedKeys(w: World, k: Key, kind: Kind, order: nat, attempt: nat)
    requires TablesFit(w) && k.kind.Qc? && k.target.OfContent? && k.target.content < |w.contents|
    requires 1 < attempt <= w.maxQcAttempts
    requires if w.contents[k.target.content].video then kind.Render? || kind.GenerateVideo? else kind.GenerateImage?
    ensures var after := Regenerated(w, kind, k.target.content, order, attempt);
      forall j :: j in after.tasks && j !in w.tasks ==> Follows(after, k, j)
  {
    var c := k.target.content;
    if kind.GenerateVideo? {
      SceneTasksEffect(w.(scenes := ReopenScenes(w.scenes, c)), c, order, attempt, |w.scenes|);
    } else {
      CreateEffect(w, Key(kind, OfContent(c), None, attempt), order);
    }
  }

  lemma HandleQcKeys(w: World, k: Key, order: nat, approve: bool)
    requires TablesFit(w) && k.kind.Qc? && k.target.OfContent? && k.target.content < |w.contents|
    ensures var after := HandleQc(w, k, order, approve);
      forall j :: j in after.tasks && j !in w.tasks ==> Follows(after, k, j)
  {
    var c := k.target.content;
    var results := w.contents[c].qcResults;
    if |results| > 0 {
      var last := results[|results| - 1];
      if last.verdict.Pass? {
        CreateEffect(w, PublishKey(c), order);
      } else if last.verdict.Fail? && |results| < w.maxQcAttempts {
        RegeneratedKeys(w, k, ModuleForRetryTarget(last.retryTarget, w.contents[c].video), order, |results| + 1);
      }
    }
  }

  lemma OnTaskDoneKeys(w: World, k: Key, approve: bool)
    requires TablesFit(w)
    ensures var after := OnTaskDone(w, k, approve);
      forall j :: j in after.tasks && j !in w.tasks ==> Follows(after, k, j)
  {
    if k in w.tasks {
      var order := w.tasks[k].order;
      if k.kind.Selection? {
        CreateEffect(w, Key(Blueprint, OfOrder(order), None, 1), order);
      } else if k.kind.Blueprint? {
        FanOutFits(w, order, |w.blueprints|);
      } else if !k.kind.Publish? && k.target.OfContent? && k.target.content < |w.contents| {
        if k.kind.Qc? { HandleQcKeys(w, k, order, approve); } else { NextStageKeys(w, k, approve); }
      }
    }
  }

  lemma NextStageKeys(w: World, k: Key, approve: bool)
    requires TablesFit(w) && k in w.tasks && k.target.OfContent? && k.target.content < |w.contents|
    requires k.kind.GenerateVideo? || k.kind.GenerateImage? || k.kind.Render?
    ensures var after := OnTaskDone(w, k, approve);
      forall j :: j in after.tasks && j !in w.tasks ==> Follows(after, k, j)
  {
    var c, order := k.target.content, w.tasks[k].order;
    if k.kind.GenerateVideo? {
      if AllScenesDone(w.scenes, c) { RenderKeyFollows(w, k, order, c); }
    } else {
      CreateEffect(w, QcKey(c, |w.contents[c].qcResults| + 1), order);
    }
  }

  lemma RenderKeyFollows(w: World, k: Key, order: nat, c: nat)
    requires TablesFit(w) && c < |w.contents| && AllScenesDone(w.scenes, c)
    ensures var after := CreateTask(w, RenderKey(c, 1), order);
      forall j :: j in after.tasks && j !in w.tasks ==> Follows(after, k, j)
  {
    CreateEffect(w, RenderKey(c, 1), order);
    var s :| 0 <= s < |w.scenes| && w.scenes[s].content == c;
    assert SceneFits(w, s);
  }

  ghost predicate TasksKept(w: World, after: World) {
    && w.tasks.Keys <= after.tasks.Keys
    && (forall j :: j in w.tasks ==> (after.tasks[j].state.Done? <==> w.tasks[j].state.Done?))
    && (forall j :: j in w.tasks ==> after.tasks[j].order == w.tasks[j].order)
    && (forall j :: j in after.tasks && j !in w.tasks ==> !after.tasks[j].state.Done?)
    && after.runs == w.runs && after.notices == w.notices && after.maxQcAttempts == w.maxQcAttempts
  }

  lemma CreateAllKeeps(w: World, reqs: seq<Request>)
    ensures TasksKept(w, CreateAll(w, reqs))
  {
    if |reqs| > 0 {
      CreateAllKeeps(w, reqs[..|reqs| - 1]);
      CreateEffect(CreateAll(w, reqs[..|reqs| - 1]), reqs[|reqs| - 1].key, reqs[|reqs| - 1].order);
    }
  }

  lemma OnTaskDoneKeeps(w: World, k: Key, approve: bool)
    ensures TasksKept(w, OnTaskDone(w, k, approve))
  {
    var reqs := OnTaskDoneSpawns(w, k, approve);
    CreateAllKeeps(TaskSide(w), reqs);
    assert TaskSide(OnTaskDone(w, k, approve)).tasks == OnTaskDone(w, k, approve).tasks;
  }

  lemma HandleKeepsRows(w: World, k: Key, f: FailureClass)
    ensures SameRows(w, Handle(w, k, f)) && Handle(w, k, f).runs == w.runs && Handle(w, k, f).notices == w.notices
    ensures forall j :: j in w.tasks ==> (Handle(w, k, f).tasks[j].state.Done? <==> w.tasks[j].state.Done?)
  {
    if k in w.tasks { HandleEffect(w, k, f); }
  }

  /** No new row; a row becomes DONE only as `completed`, and never stops being DONE. */
  ghost predicate RowsKept(w: World, after: World, completed: Option<Key>) {
    && SameRows(w, after)
    && (forall j :: j in w.tasks && w.tasks[j].state.Done? ==> after.tasks[j].state.Done?)
    && (forall j :: j in w.tasks && after.tasks[j].state.Done? ==> w.tasks[j].state.Done? || completed == Some(j))
  }

  lemma StartRunKeepsRows(w: World, k: Key)
    requires k in w.tasks && Waiting(w.tasks[k].state)
    ensures RowsKept(w, StartRun(w, k), None)
    ensures MessagesFit(w) ==> MessagesFit(StartRun(w, k))
  {
    var produced := StartRunEffect(w, k);
    var after := StartRun(w, k);
    forall j, p | Run(j, p) in after.runs ensures MessagesFit(w) ==> j in after.tasks {
      assert Run(j, p) in w.runs || j == k;
    }
  }

  lemma TakeJobKeepsRows(w: World, k: Key, redeliver: bool)
    ensures RowsKept(w, TakeJob(w, k, redeliver), None)
    ensures MessagesFit(w) ==> MessagesFit(TakeJob(w, k, redeliver))
  {
    if k in w.tasks && Waiting(w.tasks[k].state) {
      StartRunKeepsRows(if redeliver then w else w.(jobs := w.jobs - multiset{k}), k);
    }
  }

  lemma ProduceKeepsRows(w: World, k: Key)
    ensures RowsKept(w, Produce(w, k), None)
  {
  }

  lemma SlaKeepsRows(w: World, k: Key)
    requires k in w.tasks
    ensures RowsKept(w, SlaBreach(w, k), None)
  {
  }

  lemma ManualRetryKeepsRows(w: World, k: Key)
    requires k in w.tasks
    ensures RowsKept(w, ManualRetry(w, k), None)
  {
  }

  lemma ManualCancelKeepsRows(w: World, k: Key)
    requires k in w.tasks
    ensures RowsKept(w, ManualCancel(w, k), None)
  {
  }

  lemma OrderCancelKeepsRows(w: World, order: nat)
    ensures RowsKept(w, OrderCancel(w, order), None)
  {
  }

  lemma OperatorKeepsRows(w: World, s: Step)
    requires Enabled(w, s) && (s.SlaStep? || s.ManualRetryStep? || s.ManualCancelStep? || s.OrderCancelStep?)
    ensures RowsKept(w, Apply(w, s), None)
  {
    if s.SlaStep? {
      SlaKeepsRows(w, s.key);
    } else if s.ManualRetryStep? {
      ManualRetryKeepsRows(w, s.key);
    } else if s.ManualCancelStep? {
      ManualCancelKeepsRows(w, s.key);
    } else {
      OrderCancelKeepsRows(w, s.order);
    }
  }

  lemma ReopenKeepsRows(w: World, s: nat)
    requires s < |w.scenes|
    ensures RowsKept(w, SetScene(w, s, Pending), None)
  {
  }

  /** Steps other than a completion's follow-up and a request create no rows. */
  lemma OtherStepKeepsRows(w: World, s: Step)
    requires Enabled(w, s) && !s.DeliverDoneStep? && !s.SubmitStep? && !s.RequestStep?
    ensures RowsKept(w, Apply(w, s), if s.CompleteStep? then Some(s.key) else None)
  {
    if s.DeliverFailedStep? {
      HandleKeepsRows(Drop(w, FailNotice(s.key, s.failure), s.ack), s.key, s.failure);
    } else if s.TakeJobStep? {
      TakeJobKeepsRows(w, s.key, s.redeliver);
    } else if s.ProduceStep? {
      ProduceKeepsRows(w, s.key);
    } else if s.ReopenStep? {
      ReopenKeepsRows(w, s.scene);
    } else if s.SlaStep? || s.ManualRetryStep? || s.ManualCancelStep? || s.OrderCancelStep? {
      OperatorKeepsRows(w, s);
    }
  }

  /** Dropping messages and keeping rows keeps the messages fitting. */
  lemma MessagesFrom(w: World, after: World)
    requires MessagesFit(w) && w.tasks.Keys <= after.tasks.Keys
    requires after.runs <= w.runs && after.notices <= w.notices
    requires forall j :: j in w.tasks && w.tasks[j].state.Done? ==> after.tasks[j].state.Done?
    ensures MessagesFit(after)
  {
    forall j | DoneNotice(j) in after.notices ensures j in after.tasks && after.tasks[j].state.Done? {
      assert DoneNotice(j) in w.notices;
    }
    forall j, f | FailNotice(j, f) in after.notices ensures j in after.tasks {
      assert FailNotice(j, f) in w.notices;
    }
    forall j, p | Run(j, p) in after.runs ensures j in after.tasks {
      assert Run(j, p) in w.runs;
    }
  }

  lemma CompleteMessages(w: World, k: Key)
    requires MessagesFit(w) && k in w.tasks
    ensures MessagesFit(Complete(w, k))
  {
    var after := Complete(w, k);
    forall j | DoneNotice(j) in after.notices ensures j in after.tasks && after.tasks[j].state.Done? {
      assert DoneNotice(j) in w.notices || j == k;
    }
    forall j, f | FailNotice(j, f) in after.notices ensures j in after.tasks {
      assert FailNotice(j, f) in w.notices;
    }
    forall j, p | Run(j, p) in after.runs ensures j in after.tasks {
      assert Run(j, p) in w.runs;
    }
  }

  lemma ProduceMessages(w: World, k: Key)
    requires MessagesFit(w) && Run(k, false) in w.runs
    ensures MessagesFit(Produce(w, k))
  {
    var after := Produce(w, k);
    forall j, p | Run(j, p) in after.runs ensures j in after.tasks {
      assert Run(j, p) in w.runs || j == k;
    }
  }

  lemma FailRunMessages(w: World, r: Run, f: FailureClass)
    requires MessagesFit(w) && r in w.runs
    ensures MessagesFit(FailRun(w, r, f))
  {
    var after := FailRun(w, r, f);
    assert Run(r.key, r.produced) in w.runs;
    forall j, g | FailNotice(j, g) in after.notices ensures j in after.tasks {
      assert FailNotice(j, g) in w.notices || j == r.key;
    }
    forall j | DoneNotice(j) in after.notices ensures j in after.tasks && after.tasks[j].state.Done? {
      assert DoneNotice(j) in w.notices;
    }
  }

  /** Failure handling and operators start no run and send no notice. */
  lemma OtherStepQuiet(w: World, s: Step)
    requires Enabled(w, s)
    requires s.DeliverFailedStep? || s.BlueprintStep? || s.QcStep? || s.ReopenStep?
          || s.SlaStep? || s.ManualRetryStep? || s.ManualCancelStep? || s.OrderCancelStep?
    ensures Apply(w, s).runs == w.runs && Apply(w, s).notices <= w.notices
  {
    if s.DeliverFailedStep? {
      HandleKeepsRows(Drop(w, FailNotice(s.key, s.failure), s.ack), s.key, s.failure);
    } else if !s.BlueprintStep? && !s.QcStep? && !s.ReopenStep? {
      OperatorKeepsRows(w, s);
    }
  }

  lemma OtherStepMessages(w: World, s: Step)
    requires Enabled(w, s) && !s.DeliverDoneStep? && !s.SubmitStep? && !s.RequestStep? && MessagesFit(w)
    ensures MessagesFit(Apply(w, s))
  {
    if s.TakeJobStep? {
      TakeJobKeepsRows(w, s.key, s.redeliver);
    } else if s.ProduceStep? {
      ProduceMessages(w, s.key);
    } else if s.CompleteStep? {
      CompleteMessages(w, s.key);
    } else if s.FailStep? {
      FailRunMessages(w, s.run, s.failure);
    } else {
      OtherStepKeepsRows(w, s);
      OtherStepQuiet(w, s);
      MessagesFrom(w, Apply(w, s));
    }
  }

  lemma CreatedMessages(w: World, k: Key, order: nat)
    requires MessagesFit(w)
    ensures MessagesFit(CreateTask(w, k, order))
  {
    CreateEffect(w, k, order);
    MessagesFrom(w, CreateTask(w, k, order));
  }

  lemma DeliverDoneFits(w: World, k: Key, approve: bool, ack: bool)
    requires Shape(w)
    ensures var after := OnTaskDone(Drop(w, DoneNotice(k), ack), k, approve);
      Shape(after) && Extends(w, after)
  {
    var dropped := Drop(w, DoneNotice(k), ack);
    SameRowsKeepTables(w, dropped);
    MessagesFrom(w, dropped);
    OnTaskDoneFits(dropped, k, approve);
    OnTaskDoneKeeps(dropped, k, approve);
    MessagesFrom(dropped, OnTaskDone(dropped, k, approve));
    ExtendsOn(w, dropped, OnTaskDone(dropped, k, approve));
  }

  /** Every step keeps the shape, requests by hand for any key included. */
  lemma ShapeStep(w: World, s: Step)
    requires Shape(w) && Enabled(w, s)
    ensures Shape(Apply(w, s)) && Extends(w, Apply(w, s))
  {
    if s.SubmitStep? {
      CreateFits(w, Key(Selection, OfOrder(s.order), None, 1), s.order);
      CreatedMessages(w, Key(Selection, OfOrder(s.order), None, 1), s.order);
    } else if s.RequestStep? {
      CreateFits(w, s.key, s.order);
      CreatedMessages(w, s.key, s.order);
    } else if s.DeliverDoneStep? {
      DeliverDoneFits(w, s.key, s.approve, s.ack);
    } else {
      OtherStepKeepsRows(w, s);
      SameRowsKeepTables(w, Apply(w, s));
      OtherStepMessages(w, s);
    }
  }

  lemma InitialShape(maxQcAttempts: nat)
    ensures Shape(Initial(maxQcAttempts))
  {
  }

  /** So every reachable world has it. */
  lemma {:induction false} ShapeRun(w: World, steps: seq<Step>)
    requires Shape(w) && ValidRun(w, steps)
    ensures Shape(After(w, steps)) && Extends(w, After(w, steps))
    decreases |steps|
  {
    if |steps| > 0 {
      ShapeStep(w, steps[0]);
      ShapeRun(Apply(w, steps[0]), steps[1..]);
      ExtendsOn(w, Apply(w, steps[0]), After(w, steps));
    }
  }

  // ---------- rows asked for by hand ----------

  /** A row that a step adds is natural, unless the step asks for it by hand. */
  lemma AddedRow(w: World, s: Step, k: Key)
    requires Shape(w) && Enabled(w, s) && k in Apply(w, s).tasks && k !in w.tasks
    ensures Natural(Apply(w, s), k) || (s.RequestStep? && s.key == k)
    ensures s.DeliverDoneStep? ==> Follows(Apply(w, s), s.key, k)
    ensures s.DeliverDoneStep? || s.SubmitStep? || s.RequestStep?
    ensures s.SubmitStep? ==> k == Key(Selection, OfOrder(s.order), None, 1)
  {
    if s.SubmitStep? {
      CreateEffect(w, Key(Selection, OfOrder(s.order), None, 1), s.order);
    } else if s.RequestStep? {
      CreateEffect(w, s.key, s.order);
    } else if s.DeliverDoneStep? {
      var dropped := Drop(w, DoneNotice(s.key), s.ack);
      SameRowsKeepTables(w, dropped);
      OnTaskDoneKeys(dropped, s.key, s.approve);
    } else {
      OtherStepKeepsRows(w, s);
    }
  }

  /** The keys asked for by hand in a run. */
  ghost function Requested(steps: seq<Step>): set<Key> {
    set i | 0 <= i < |steps| && steps[i].RequestStep? :: steps[i].key
  }

  /** Every row is natural or was asked for by hand. */
  ghost predicate NaturalBut(w: World, byHand: set<Key>) {
    forall k :: k in w.tasks ==> Natural(w, k) || k in byHand
  }

  lemma NaturalButStep(w: World, s: Step, byHand: set<Key>)
    requires Shape(w) && Enabled(w, s) && NaturalBut(w, byHand)
    ensures NaturalBut(Apply(w, s), byHand + if s.RequestStep? then {s.key} else {})
  {
    ShapeStep(w, s);
    forall k | k in Apply(w, s).tasks
      ensures Natural(Apply(w, s), k) || k in byHand || (s.RequestStep? && k == s.key)
    {
      if k in w.tasks { ExtendedKey(w, Apply(w, s), k); } else { AddedRow(w, s, k); }
    }
  }

  lemma {:induction false} NaturalButRun(w: World, steps: seq<Step>, byHand: set<Key>)
    requires Shape(w) && ValidRun(w, steps) && NaturalBut(w, byHand)
    ensures NaturalBut(After(w, steps), byHand + Requested(steps))
    decreases |steps|
  {
    if |steps| > 0 {
      var now := if steps[0].RequestStep? then {steps[0].key} else {};
      NaturalButStep(w, steps[0], byHand);
      ShapeStep(w, steps[0]);
      NaturalButRun(Apply(w, steps[0]), steps[1..], byHand + now);
      RequestedNext(steps);
      assert byHand + now + Requested(steps[1..]) == byHand + Requested(steps);
    }
  }

  lemma RequestedNext(steps: seq<Step>)
    requires |steps| > 0
    ensures Requested(steps) == Requested(steps[1..]) + if steps[0].RequestStep? then {steps[0].key} else {}
  {
    forall k | k in Requested(steps)
      ensures k in Requested(steps[1..]) || (steps[0].RequestStep? && k == steps[0].key)
    {
      var i :| 0 <= i < |steps| && steps[i].RequestStep? && steps[i].key == k;
      if i > 0 { assert steps[1..][i - 1] == steps[i]; }
    }
    forall k | k in Requested(steps[1..]) ensures k in Requested(steps) {
      var i :| 0 <= i < |steps| - 1 && steps[1..][i].RequestStep? && steps[1..][i].key == k;
      assert steps[i + 1] == steps[1..][i];
    }
  }

  /** In every reachable world a row that no automation asks for was requested by hand. */
  lemma OddRowsAreByHand(steps: seq<Step>, maxQcAttempts: nat, k: Key)
    requires ValidRun(Initial(maxQcAttempts), steps)
    requires var w := After(Initial(maxQcAttempts), steps);
      k in w.tasks && !Natural(w, k)
    ensures k in Requested(steps)
  {
    InitialShape(maxQcAttempts);
    NaturalButRun(Initial(maxQcAttempts), steps, {});
  }

  // ---------- the keys of one content ----------

  /** A request by hand names existing rows and fits if it is for content c; for others it may be any. */
  ghost predicate Fitting(w: World, s: Step, c: nat) {
    s.RequestStep? ==> NamesRows(w, s.key) && (s.key.target == OfContent(c) ==> KeyFits(w, s.key))
  }

  lemma FollowerFits(w: World, after: World, cause: Key, k: Key, c: nat)
    requires KeysFitAt(w, c) && Extends(w, after) && cause in w.tasks && Follows(after, cause, k)
    ensures NamesRows(after, k) && (k.target == OfContent(c) ==> KeyFits(after, k))
  {
    NaturalNamesRows(after, k);
    if LaterStage(after, k) && k.target == OfContent(c) {
      assert KeyFits(w, cause) && NamesRows(w, cause);
      assert RenderKey(c, 1) in w.tasks;
    }
  }

  /** A step keeps the keys of content c fitting if and only if it asks by hand for no other. */
  lemma KeysFitStep(w: World, s: Step, c: nat)
    requires Shape(w) && Enabled(w, s) && KeysFitAt(w, c)
    ensures KeysFitAt(Apply(w, s), c) <==> Fitting(w, s, c)
  {
    var after := Apply(w, s);
    ShapeStep(w, s);
    if Fitting(w, s, c) {
      forall k | k in after.tasks ensures NamesRows(after, k) && (k.target == OfContent(c) ==> KeyFits(after, k)) {
        if k in w.tasks { ExtendedKey(w, after, k); } else { AddedKeyFits(w, s, c, k); }
      }
    } else {
      CreateEffect(w, s.key, s.order);
      assert s.key in after.tasks;
      assert !(NamesRows(after, s.key) && (s.key.target == OfContent(c) ==> KeyFits(after, s.key)));
    }
  }

  lemma AddedKeyFits(w: World, s: Step, c: nat, k: Key)
    requires Shape(w) && Enabled(w, s) && KeysFitAt(w, c) && Fitting(w, s, c) && Extends(w, Apply(w, s))
    requires k in Apply(w, s).tasks && k !in w.tasks
    ensures var after := Apply(w, s);
      NamesRows(after, k) && (k.target == OfContent(c) ==> KeyFits(after, k))
  {
    AddedRow(w, s, k);
    if s.DeliverDoneStep? {
      assert s.key in w.tasks;
      FollowerFits(w, Apply(w, s), s.key, k, c);
    } else if s.RequestStep? {
      CreateEffect(w, s.key, s.order);
      ExtendedKey(w, Apply(w, s), k);
    }
  }
}
