/**
 * One channel's publications and its health: the guard in front of an upload, the daily
 * observation, quarantine and release.  A publish attempt is two steps, the row written before the
 * guard and the guarded upload, so that days may change and other attempts may begin in between.
 */
module Publishing {
  import opened Wrappers

  datatype Health = ACTIVE | THROTTLED | QUARANTINE

  datatype PublicationStatus = UPLOADING | UPLOADED | PUBLISHED | FAILED | REMOVED

  /** `createdAt` is set with the row and never changes. */
  datatype Publication = Publication(status: PublicationStatus, createdAt: nat)

  datatype Channel = Channel(
    active: bool, health: Health, dailyCap: int, observedSafeMax: int, minIntervalMin: int, quarantineOnRemoval: bool,
    pubs: map<nat, Publication>, now: nat, dayStart: nat)

  // ---------- Queries ----------

  predicate Posted(p: Publication) { p.status == UPLOADED || p.status == PUBLISHED }

  function PostedToday(c: Channel): set<nat> {
    set content | content in c.pubs && Posted(c.pubs[content]) && c.pubs[content].createdAt >= c.dayStart
  }

  function CountToday(c: Channel): nat { |PostedToday(c)| }

  function Removals(c: Channel): nat {
    |set content | content in c.pubs && c.pubs[content].status == REMOVED|
  }

  /** The youngest posted row is younger than the minimal interval. */
  predicate TooSoon(c: Channel) {
    exists content :: content in c.pubs && Posted(c.pubs[content])
      && c.now - c.pubs[content].createdAt < c.minIntervalMin * 60_000
  }

  datatype Reason = OK | QUARANTINED | CHANNEL_INACTIVE | MIN_INTERVAL | CAP_REACHED

  datatype Room = Room(available: int, reason: Reason, postedToday: nat)

  function Headroom(c: Channel): Room {
    if c.health == QUARANTINE then Room(0, QUARANTINED, 0)
    else if !c.active then Room(0, CHANNEL_INACTIVE, 0)
    else if TooSoon(c) then Room(0, MIN_INTERVAL, CountToday(c))
    else
      var available := if c.dailyCap > CountToday(c) then c.dailyCap - CountToday(c) else 0;
      Room(available, if available > 0 then OK else CAP_REACHED, CountToday(c))
  }

  /** What a free slot means. */
  lemma RoomMeans(c: Channel)
    ensures var room := Headroom(c);
            && (room.available > 0 <==> c.health != QUARANTINE && c.active && !TooSoon(c) && CountToday(c) < c.dailyCap)
            && (room.available > 0 <==> room.reason == OK)
            && (room.available > 0 ==> room.available + CountToday(c) == c.dailyCap)
  {
  }

  /** The row stands for a post that is up. */
  ghost predicate IsUp(p: Publication) { p.status in {UPLOADED, PUBLISHED} }

  /** The same from the rows: every post is old enough, and those of the day are fewer than the cap. */
  lemma RoomFromRows(c: Channel)
    ensures Headroom(c).available > 0 <==>
              && c.health != QUARANTINE && c.active
              && (forall content :: content in c.pubs && IsUp(c.pubs[content]) ==>
                    c.now - c.pubs[content].createdAt >= c.minIntervalMin * 60_000)
              && |set content | content in c.pubs && IsUp(c.pubs[content]) && c.pubs[content].createdAt >= c.dayStart|
                 < c.dailyCap
    ensures c.health == QUARANTINE <==> Headroom(c).reason == QUARANTINED
    ensures c.health != QUARANTINE && !c.active <==> Headroom(c).reason == CHANNEL_INACTIVE
  {
    assert PostedToday(c)
        == set content | content in c.pubs && IsUp(c.pubs[content]) && c.pubs[content].createdAt >= c.dayStart;
  }

  // ---------- Publishing ----------

  function WithStatus(c: Channel, content: nat, status: PublicationStatus): Channel
    requires content in c.pubs
  {
    c.(pubs := c.pubs[content := c.pubs[content].(status := status)])
  }

  /** The row is written before the guard; a row that is posted already ends the attempt. */
  function Begin(c: Channel, content: nat): Channel {
    if !c.active then c
    else if content in c.pubs then
      if Posted(c.pubs[content]) then c else WithStatus(c, content, UPLOADING)
    else c.(pubs := c.pubs[content := Publication(UPLOADING, c.now)])
  }

  /**
   * How the attempt goes behind the guard: something fails before the upload is made; or the upload
   * is made and recorded; or it is made and something after it fails, so that it is recorded FAILED.
   */
  datatype Attempt = NotUploaded | Recorded | Unrecorded

  /** The platform receives the post. */
  ghost predicate Uploads(c: Channel, content: nat, attempt: Attempt) {
    content in c.pubs && c.pubs[content].status == UPLOADING && Headroom(c).available > 0 && attempt != NotUploaded
  }

  /** The row says so. */
  ghost predicate Posts(c: Channel, content: nat, attempt: Attempt) {
    Uploads(c, content, attempt) && attempt == Recorded
  }

  ghost function Finish(c: Channel, content: nat, attempt: Attempt): Channel
    requires content in c.pubs && c.pubs[content].status == UPLOADING
  {
    WithStatus(c, content, if Posts(c, content, attempt) then UPLOADED else FAILED)
  }

  function Publicize(c: Channel, content: nat): Channel {
    if content in c.pubs && Posted(c.pubs[content]) then WithStatus(c, content, PUBLISHED) else c
  }

  /** The platform takes a post down. */
  function Remove(c: Channel, content: nat): Channel
    requires content in c.pubs && Posted(c.pubs[content])
  {
    WithStatus(c, content, REMOVED)
  }

  /** Other rows and the channel's settings as they were. */
  ghost predicate OnlyRow(c: Channel, d: Channel, content: nat) {
    && d == c.(pubs := d.pubs)
    && d.pubs.Keys == c.pubs.Keys + {content}
    && forall other :: other in c.pubs && other != content ==> d.pubs[other] == c.pubs[other]
  }

  /**
   * An attempt from its start to its end: on an inactive channel, or for a content that is up, nothing
   * happens; otherwise the row ends UPLOADED exactly when there was room and all went well, FAILED if
   * not, and keeps the moment it was made.
   */
  lemma AttemptOutcome(c: Channel, content: nat, attempt: Attempt)
    ensures var begun := Begin(c, content);
            if !c.active || (content in c.pubs && IsUp(c.pubs[content])) then begun == c
            else
              && content in begun.pubs && begun.pubs[content].status == UPLOADING
              && begun.pubs[content].createdAt == (if content in c.pubs then c.pubs[content].createdAt else c.now)
              && OnlyRow(c, begun, content)
              && var done := Finish(begun, content, attempt);
                 && OnlyRow(c, done, content)
                 && done.pubs[content].createdAt == begun.pubs[content].createdAt
                 && done.pubs[content].status
                    == if Headroom(begun).available > 0 && attempt == Recorded then UPLOADED else FAILED
  {
  }

  /** Making a post public, or taking it down, changes its status and nothing else. */
  lemma StatusOutcome(c: Channel, content: nat)
    ensures var d := Publicize(c, content);
            if content in c.pubs && IsUp(c.pubs[content]) then
              && OnlyRow(c, d, content) && d.pubs[content] == c.pubs[content].(status := PUBLISHED)
              && OnlyRow(c, Remove(c, content), content)
              && Remove(c, content).pubs[content] == c.pubs[content].(status := REMOVED)
            else d == c
  {
  }

  // ---------- Observation and operators ----------

  function Max(a: int, b: int): int { if a >= b then a else b }

  function Min(a: int, b: int): int { if a <= b then a else b }

  datatype Metrics = Metrics(postedCount: nat, policyRemovals: nat, dailyCap: int)

  function Observe(c: Channel, m: Metrics): Channel {
    if m.policyRemovals > 0 && c.quarantineOnRemoval then c.(health := QUARANTINE)
    else if m.postedCount > m.dailyCap then c.(health := THROTTLED, dailyCap := Max(m.dailyCap - 1, 1))
    else if c.health == THROTTLED then c.(health := ACTIVE)
    else c
  }

  predicate RemovalSeen(c: Channel) { Removals(c) > 0 && c.quarantineOnRemoval }

  function Today(c: Channel): Metrics { Metrics(CountToday(c), Removals(c), c.dailyCap) }

  ghost function ObserveToday(c: Channel): Channel { Observe(c, Today(c)) }

  function ReleasedCap(c: Channel, dailyCap: Option<int>): int {
    Min(if dailyCap.Some? then dailyCap.value else c.dailyCap, c.observedSafeMax)
  }

  function Release(c: Channel, dailyCap: Option<int>): Channel {
    c.(health := ACTIVE, dailyCap := ReleasedCap(c, dailyCap))
  }

  function Quarantine(c: Channel): Channel { c.(health := QUARANTINE) }

  // ---------- Runs ----------

  datatype Step =
    | SBegin(content: nat)
    | SFinish(content: nat, attempt: Attempt)
    | SPublicize(content: nat)
    | SRemove(content: nat)
    | SWait(now: nat)
    | SNewDay(now: nat, dayStart: nat)
    | SObserveToday
    | SRelease(dailyCap: Option<int>)
    | SQuarantine
    | SSetActive(active: bool)

  predicate Enabled(c: Channel, step: Step) {
    match step
    case SFinish(content, _) => content in c.pubs && c.pubs[content].status == UPLOADING
    case SRemove(content) => content in c.pubs && Posted(c.pubs[content])
    case SWait(now) => c.now <= now
    case SNewDay(now, dayStart) => c.now < dayStart <= now
    case _ => true
  }

  ghost function Apply(c: Channel, step: Step): Channel
    requires Enabled(c, step)
  {
    match step
    case SBegin(content) => Begin(c, content)
    case SFinish(content, attempt) => Finish(c, content, attempt)
    case SPublicize(content) => Publicize(c, content)
    case SRemove(content) => Remove(c, content)
    case SWait(now) => c.(now := now)
    case SNewDay(now, dayStart) => c.(now := now, dayStart := dayStart)
    case SObserveToday => ObserveToday(c)
    case SRelease(dailyCap) => Release(c, dailyCap)
    case SQuarantine => Quarantine(c)
    case SSetActive(active) => c.(active := active)
  }

  ghost predicate ValidRun(c: Channel, steps: seq<Step>)
    decreases |steps|
  {
    |steps| == 0 || (Enabled(c, steps[0]) && ValidRun(Apply(c, steps[0]), steps[1..]))
  }

  ghost function After(c: Channel, steps: seq<Step>): Channel
    requires ValidRun(c, steps)
    decreases |steps|
  {
    if |steps| == 0 then c else After(Apply(c, steps[0]), steps[1..])
  }

  /** No row is younger than the clock. */
  ghost predicate Clocked(c: Channel) {
    forall content :: content in c.pubs ==> c.pubs[content].createdAt <= c.now
  }

  ghost predicate WithinCap(c: Channel) { CountToday(c) <= c.dailyCap }

  // ---------- How the count moves ----------

  /** Changing one row changes the count by that row. */
  lemma CountMoves(c: Channel, d: Channel, content: nat, p: Publication)
    requires d.pubs == c.pubs[content := p] && d.dayStart == c.dayStart
    ensures var counted := content in PostedToday(c);
            var counts := Posted(p) && p.createdAt >= c.dayStart;
            CountToday(d) == CountToday(c) - (if counted then 1 else 0) + (if counts then 1 else 0)
  {
    CountWithout(c, content);
    CountWithout(d, content);
    assert PostedToday(d) - {content} == PostedToday(c) - {content};
  }

  lemma CountWithout(c: Channel, content: nat)
    ensures CountToday(c) == |PostedToday(c) - {content}| + (if content in PostedToday(c) then 1 else 0)
  {
    if content in PostedToday(c) {
      assert PostedToday(c) == (PostedToday(c) - {content}) + {content};
    } else {
      assert PostedToday(c) == PostedToday(c) - {content};
    }
  }

  lemma BeginKeepsCount(c: Channel, content: nat)
    ensures PostedToday(Begin(c, content)) == PostedToday(c)
  {
  }

  lemma FinishCounts(c: Channel, content: nat, attempt: Attempt)
    requires content in c.pubs && c.pubs[content].status == UPLOADING
    ensures CountToday(Finish(c, content, attempt))
            == CountToday(c) + if Posts(c, content, attempt) && c.pubs[content].createdAt >= c.dayStart then 1 else 0
  {
    var d := Finish(c, content, attempt);
    CountMoves(c, d, content, d.pubs[content]);
  }

  lemma RemoveCounts(c: Channel, content: nat)
    requires content in c.pubs && Posted(c.pubs[content])
    ensures CountToday(Remove(c, content)) == CountToday(c) - if c.pubs[content].createdAt >= c.dayStart then 1 else 0
  {
    var d := Remove(c, content);
    CountMoves(c, d, content, d.pubs[content]);
  }

  lemma PublicizeKeepsCount(c: Channel, content: nat)
    ensures PostedToday(Publicize(c, content)) == PostedToday(c)
  {
  }

  lemma NewDayClearsCount(c: Channel, now: nat, dayStart: nat)
    requires Clocked(c) && c.now < dayStart <= now
    ensures CountToday(c.(now := now, dayStart := dayStart)) == 0
  {
    NothingToday(c.(now := now, dayStart := dayStart));
  }

  lemma NothingToday(c: Channel)
    requires forall content :: content in c.pubs ==> c.pubs[content].createdAt < c.dayStart
    ensures CountToday(c) == 0
  {
    assert PostedToday(c) == {};
  }

  /** Every other step but a new day leaves the day's count alone. */
  lemma OtherStepKeepsCount(c: Channel, step: Step)
    requires Enabled(c, step) && !step.SFinish? && !step.SRemove? && !step.SNewDay?
    ensures CountToday(Apply(c, step)) == CountToday(c)
  {
    if step.SBegin? {
      BeginKeepsCount(c, step.content);
    } else if step.SPublicize? {
      PublicizeKeepsCount(c, step.content);
    } else {
      SameCount(c, Apply(c, step));
    }
  }

  lemma ClockedStep(c: Channel, step: Step)
    requires Clocked(c) && Enabled(c, step)
    ensures Clocked(Apply(c, step))
  {
  }

  // ---------- The cap ----------

  /** From within the cap, every step stays within it, except a release to a cap below the count. */
  lemma CapStep(c: Channel, step: Step)
    requires Clocked(c) && Enabled(c, step) && 0 <= c.dailyCap && WithinCap(c)
    ensures WithinCap(Apply(c, step)) <==> (step.SRelease? ==> CountToday(c) <= ReleasedCap(c, step.dailyCap))
  {
    if step.SFinish? {
      FinishCounts(c, step.content, step.attempt);
    } else if step.SRemove? {
      RemoveCounts(c, step.content);
    } else if step.SNewDay? {
      NewDayClearsCount(c, step.now, step.dayStart);
    } else {
      OtherStepKeepsCount(c, step);
    }
  }

  lemma SameCount(c: Channel, d: Channel)
    requires d.pubs == c.pubs && d.dayStart == c.dayStart
    ensures CountToday(d) == CountToday(c) && Removals(d) == Removals(c)
  {
    assert PostedToday(d) == PostedToday(c);
  }

  /** No release of the run sets the cap below what was posted that day. */
  ghost predicate CarefulRun(c: Channel, steps: seq<Step>)
    requires ValidRun(c, steps)
    decreases |steps|
  {
    |steps| == 0
    || ((steps[0].SRelease? ==> CountToday(c) <= ReleasedCap(c, steps[0].dailyCap))
        && CarefulRun(Apply(c, steps[0]), steps[1..]))
  }

  lemma CapStaysNonNegative(c: Channel, step: Step)
    requires Clocked(c) && Enabled(c, step) && 0 <= c.dailyCap && WithinCap(c)
    requires step.SRelease? ==> CountToday(c) <= ReleasedCap(c, step.dailyCap)
    ensures 0 <= Apply(c, step).dailyCap
  {
  }

  /**
   * Over any serialised run of publishes, publicizations, removals, waits, day changes and
   * observations the count of the day stays within the cap, and no step throttles the channel.
   */
  lemma {:induction false} CapHolds(c: Channel, steps: seq<Step>)
    requires Clocked(c) && 0 <= c.dailyCap && WithinCap(c)
    requires ValidRun(c, steps) && CarefulRun(c, steps)
    ensures WithinCap(After(c, steps)) && Clocked(After(c, steps)) && 0 <= After(c, steps).dailyCap
    ensures c.health != THROTTLED ==> After(c, steps).health != THROTTLED
    decreases |steps|
  {
    if |steps| > 0 {
      ClockedStep(c, steps[0]);
      CapStep(c, steps[0]);
      CapStaysNonNegative(c, steps[0]);
      CapHolds(Apply(c, steps[0]), steps[1..]);
    }
  }

  // ---------- Quarantine ----------

  /** A quarantined channel uploads nothing. */
  lemma QuarantineStopsUploads(c: Channel, content: nat, attempt: Attempt)
    requires c.health == QUARANTINE
    ensures !Uploads(c, content, attempt)
  {
  }

  /**
   * Apart from a release, quarantine is left in one case only: an observation without removals on a
   * channel that has posted more than its cap throttles it, which lets it publish again.
   */
  lemma QuarantineStep(c: Channel, step: Step)
    requires c.health == QUARANTINE && Enabled(c, step) && !step.SRelease?
    ensures Apply(c, step).health != QUARANTINE <==>
            step.SObserveToday? && !RemovalSeen(c) && CountToday(c) > c.dailyCap
  {
  }

  ghost predicate NoRelease(steps: seq<Step>) {
    forall k :: 0 <= k < |steps| ==> !steps[k].SRelease?
  }

  /** Within the cap, only a release ends quarantine, and until then nothing is uploaded. */
  lemma {:induction false} QuarantineHolds(c: Channel, steps: seq<Step>)
    requires Clocked(c) && 0 <= c.dailyCap && WithinCap(c)
    requires c.health == QUARANTINE && ValidRun(c, steps) && NoRelease(steps)
    ensures After(c, steps).health == QUARANTINE
    ensures forall content :: content in After(c, steps).pubs && Posted(After(c, steps).pubs[content]) ==>
              content in c.pubs && Posted(c.pubs[content])
    decreases |steps|
  {
    if |steps| > 0 {
      var d := Apply(c, steps[0]);
      assert !steps[0].SRelease?;
      ClockedStep(c, steps[0]);
      CapStep(c, steps[0]);
      QuarantineStep(c, steps[0]);
      NothingPosted(c, steps[0]);
      CapStaysNonNegative(c, steps[0]);
      QuarantineHolds(d, steps[1..]);
    }
  }

  lemma NothingPosted(c: Channel, step: Step)
    requires c.health == QUARANTINE && Enabled(c, step)
    ensures forall content :: content in Apply(c, step).pubs && Posted(Apply(c, step).pubs[content]) ==>
              content in c.pubs && Posted(c.pubs[content])
  {
    if step.SFinish? {
      QuarantineStopsUploads(c, step.content, step.attempt);
    }
  }

  // ---------- How a channel comes into quarantine ----------

  /** Some post has been taken down, and the configuration makes that a reason. */
  ghost predicate MustQuarantine(c: Channel) {
    c.quarantineOnRemoval && exists content :: content in c.pubs && c.pubs[content].status == REMOVED
  }

  lemma RemovalsCount(c: Channel)
    ensures Removals(c) > 0 <==> exists content :: content in c.pubs && c.pubs[content].status == REMOVED
  {
    var removed := set content | content in c.pubs && c.pubs[content].status == REMOVED;
    if content :| content in c.pubs && c.pubs[content].status == REMOVED {
      assert content in removed;
    } else {
      assert removed == {};
    }
  }

  /**
   * What an observation of the day decides, from the rows: a removal quarantines; more posts than the
   * cap throttle and lower the cap; otherwise a throttled channel is free again and any other stays.
   */
  lemma ObservationOutcome(c: Channel)
    ensures var d, posted := Apply(c, SObserveToday), PostedRows(c);
            if MustQuarantine(c) then d == c.(health := QUARANTINE)
            else if posted > c.dailyCap then
              d == c.(health := THROTTLED, dailyCap := if c.dailyCap > 1 then c.dailyCap - 1 else 1)
            else d == c.(health := if c.health == QUARANTINE then QUARANTINE else ACTIVE)
  {
    RemovalsCount(c);
    assert PostedToday(c)
        == set content | content in c.pubs && IsUp(c.pubs[content]) && c.pubs[content].createdAt >= c.dayStart;
  }

  /** Today's posts that are up. */
  ghost function PostedRows(c: Channel): nat {
    |set content | content in c.pubs && IsUp(c.pubs[content]) && c.pubs[content].createdAt >= c.dayStart|
  }

  /** Operators: quarantine leaves no room, and a release frees the channel under the safe cap. */
  lemma OperatorOutcome(c: Channel, dailyCap: Option<int>)
    ensures var d := Apply(c, SQuarantine); d == c.(health := QUARANTINE) && Headroom(d).available == 0
    ensures var d := Apply(c, SRelease(dailyCap));
            && d.health == ACTIVE && d == c.(health := ACTIVE, dailyCap := d.dailyCap)
            && d.dailyCap <= c.observedSafeMax && d.dailyCap <= (if dailyCap.Some? then dailyCap.value else c.dailyCap)
            && (d.dailyCap == c.observedSafeMax || Some(d.dailyCap) == dailyCap
                || (dailyCap.None? && d.dailyCap == c.dailyCap))
  {
  }

  /**
   * After a removal, the next observation quarantines the channel, and within the cap nothing is
   * uploaded any more, over any run, until an operator releases it.
   */
  lemma RemovalStopsUploads(l: Ledger, c: Channel, steps: seq<Step>)
    requires Clocked(c) && 0 <= c.dailyCap && WithinCap(c) && MustQuarantine(c)
    requires ValidRun(Apply(c, SObserveToday), steps) && NoRelease(steps)
    ensures var d := Apply(c, SObserveToday);
            && d.health == QUARANTINE && Headroom(d).available == 0
            && After(d, steps).health == QUARANTINE && Headroom(After(d, steps)).available == 0
            && Booked(l, d, steps).uploads <= l.uploads
  {
    var d := Apply(c, SObserveToday);
    ObservationOutcome(c);
    ClockedStep(c, SObserveToday);
    CapStep(c, SObserveToday);
    QuarantineHolds(d, steps);
    QuarantineUploadsNothing(l, d, steps);
  }

  /** An observation lowers the cap by one, down to one; only from a cap below one does it raise it. */
  lemma ObservationLowersCap(c: Channel)
    ensures ObserveToday(c).dailyCap > c.dailyCap <==>
            c.dailyCap < 1 && !RemovalSeen(c) && CountToday(c) > c.dailyCap
    ensures !RemovalSeen(c) && CountToday(c) > c.dailyCap > 1 ==> ObserveToday(c).dailyCap == c.dailyCap - 1
  {
  }

  ghost function Fresh(cap: int): Channel {
    Channel(true, ACTIVE, cap, 3, 0, true, map[], 0, 0)
  }

  /** A run, first step first, with what it books. */
  lemma RunCons(l: Ledger, c: Channel, run: seq<Step>, rest: seq<Step>)
    requires |run| > 0 && run[1..] == rest && Enabled(c, run[0]) && ValidRun(Apply(c, run[0]), rest)
    ensures ValidRun(c, run)
    ensures After(c, run) == After(Apply(c, run[0]), rest)
    ensures Booked(l, c, run) == Booked(Book(l, c, run[0]), Apply(c, run[0]), rest)
  {
  }

  /** The reachable case: after a release to a cap of zero, an observation ends a manual quarantine. */
  lemma QuarantineCanEndByItself()
    ensures var steps := [SBegin(0), SFinish(0, Recorded), SRelease(Some(0)), SQuarantine, SObserveToday];
            && ValidRun(Fresh(1), steps)
            && After(Fresh(1), steps).health == THROTTLED
  {
    var c0, l := Fresh(1), Ledger(0, 0, 0, 0);
    var c1 := Apply(c0, SBegin(0));
    assert PostedToday(c1) == {};
    var c2 := Apply(c1, SFinish(0, Recorded));
    FinishCounts(c1, 0, Recorded);
    var c3 := Apply(c2, SRelease(Some(0)));
    var c4 := Apply(c3, SQuarantine);
    SameCount(c2, c4);
    assert Removals(c4) == 0 by {
      assert (set content | content in c4.pubs && c4.pubs[content].status == REMOVED) == {};
    }
    assert Apply(c4, SObserveToday).health == THROTTLED;
    var r4 := [SObserveToday];
    RunCons(l, c4, r4, []);
    var r3 := [SQuarantine] + r4;
    RunCons(l, c3, r3, r4);
    var r2 := [SRelease(Some(0))] + r3;
    RunCons(l, c2, r2, r3);
    var r1 := [SFinish(0, Recorded)] + r2;
    RunCons(l, c1, r1, r2);
    var r0 := [SBegin(0)] + r1;
    RunCons(l, c0, r0, r1);
    assert r0 == [SBegin(0), SFinish(0, Recorded), SRelease(Some(0)), SQuarantine, SObserveToday];
  }

  // ---------- Real uploads ----------

  /**
   * Uploads since the day began, and those of them the day's count does not show: of rows created
   * earlier (`carried`), taken down again (`withdrawn`), and recorded FAILED (`lost`).
   */
  datatype Ledger = Ledger(uploads: nat, carried: nat, withdrawn: nat, lost: nat)

  ghost function Book(l: Ledger, c: Channel, step: Step): Ledger
    requires Enabled(c, step)
  {
    match step
    case SFinish(content, attempt) =>
      if !Uploads(c, content, attempt) then l
      else if !Posts(c, content, attempt) then l.(uploads := l.uploads + 1, lost := l.lost + 1)
      else if c.pubs[content].createdAt < c.dayStart then l.(uploads := l.uploads + 1, carried := l.carried + 1)
      else l.(uploads := l.uploads + 1)
    case SRemove(content) =>
      if c.pubs[content].createdAt < c.dayStart then l else l.(withdrawn := l.withdrawn + 1)
    case SNewDay(_, _) => Ledger(0, 0, 0, 0)
    case _ => l
  }

  ghost function Booked(l: Ledger, c: Channel, steps: seq<Step>): Ledger
    requires ValidRun(c, steps)
    decreases |steps|
  {
    if |steps| == 0 then l else Booked(Book(l, c, steps[0]), Apply(c, steps[0]), steps[1..])
  }

  /** Uploads the day's count does not show. */
  function Unseen(l: Ledger): nat { l.carried + l.withdrawn + l.lost }

  ghost predicate Balanced(l: Ledger, c: Channel) {
    l.uploads == CountToday(c) + Unseen(l)
  }

  lemma BookFinish(l: Ledger, c: Channel, step: Step)
    requires step.SFinish? && Enabled(c, step) && Balanced(l, c)
    ensures Balanced(Book(l, c, step), Apply(c, step))
  {
    var d := Finish(c, step.content, step.attempt);
    assert Apply(c, step) == d;
    FinishCounts(c, step.content, step.attempt);
  }

  lemma BookRemove(l: Ledger, c: Channel, step: Step)
    requires step.SRemove? && Enabled(c, step) && Balanced(l, c)
    ensures Balanced(Book(l, c, step), Apply(c, step))
  {
    assert Apply(c, step) == Remove(c, step.content);
    RemoveCounts(c, step.content);
  }

  lemma BookNewDay(l: Ledger, c: Channel, now: nat, dayStart: nat)
    requires Clocked(c) && Enabled(c, SNewDay(now, dayStart))
    ensures Balanced(Book(l, c, SNewDay(now, dayStart)), Apply(c, SNewDay(now, dayStart)))
  {
    EmptyLedgerBalances(c.(now := now, dayStart := dayStart));
  }

  lemma EmptyLedgerBalances(c: Channel)
    requires forall content :: content in c.pubs ==> c.pubs[content].createdAt < c.dayStart
    ensures Balanced(Ledger(0, 0, 0, 0), c)
  {
    NothingToday(c);
  }

  lemma BookOther(l: Ledger, c: Channel, step: Step)
    requires !step.SFinish? && !step.SRemove? && !step.SNewDay? && Enabled(c, step) && Balanced(l, c)
    ensures Balanced(Book(l, c, step), Apply(c, step))
  {
    OtherStepKeepsCount(c, step);
  }

  lemma BookStep(l: Ledger, c: Channel, step: Step)
    requires Clocked(c) && Enabled(c, step) && Balanced(l, c)
    ensures Balanced(Book(l, c, step), Apply(c, step))
  {
    if step.SFinish? {
      BookFinish(l, c, step);
    } else if step.SRemove? {
      BookRemove(l, c, step);
    } else if step.SNewDay? {
      BookNewDay(l, c, step.now, step.dayStart);
    } else {
      BookOther(l, c, step);
    }
  }

  /** Every upload of the day is counted, carried over, withdrawn or lost: the count misses exactly the last three. */
  lemma {:induction false} UploadsAccounted(l: Ledger, c: Channel, steps: seq<Step>)
    requires Clocked(c) && ValidRun(c, steps) && Balanced(l, c)
    ensures var m := Booked(l, c, steps); m.uploads == CountToday(After(c, steps)) + m.carried + m.withdrawn + m.lost
    decreases |steps|
  {
    if |steps| > 0 {
      ClockedStep(c, steps[0]);
      BookStep(l, c, steps[0]);
      UploadsAccounted(Book(l, c, steps[0]), Apply(c, steps[0]), steps[1..]);
    }
  }

  /** Rows are uploaded on the day they are made, every upload is recorded, and no post of the day is taken down. */
  ghost predicate CleanRun(c: Channel, steps: seq<Step>)
    requires ValidRun(c, steps)
    decreases |steps|
  {
    |steps| == 0
    || ((steps[0].SFinish? ==> c.pubs[steps[0].content].createdAt >= c.dayStart && steps[0].attempt != Unrecorded)
        && (steps[0].SRemove? ==> c.pubs[steps[0].content].createdAt < c.dayStart)
        && CleanRun(Apply(c, steps[0]), steps[1..]))
  }

  lemma {:induction false} CleanRunBooks(l: Ledger, c: Channel, steps: seq<Step>)
    requires ValidRun(c, steps) && CleanRun(c, steps) && Unseen(l) == 0
    ensures Unseen(Booked(l, c, steps)) == 0
    decreases |steps|
  {
    if |steps| > 0 {
      CleanRunBooks(Book(l, c, steps[0]), Apply(c, steps[0]), steps[1..]);
    }
  }

  /** Real uploads exceed the cap at most by those the count does not show; in clean runs not at all. */
  lemma UploadsWithinCap(l: Ledger, c: Channel, steps: seq<Step>)
    requires Clocked(c) && 0 <= c.dailyCap && WithinCap(c) && ValidRun(c, steps) && CarefulRun(c, steps)
    requires l.uploads == CountToday(c) && Unseen(l) == 0
    ensures var m, cap := Booked(l, c, steps), After(c, steps).dailyCap;
            && m.uploads <= cap + m.carried + m.withdrawn + m.lost
            && (CleanRun(c, steps) ==> m.uploads <= cap)
  {
    CapHolds(c, steps);
    UploadsAccounted(l, c, steps);
    if CleanRun(c, steps) {
      CleanRunBooks(l, c, steps);
    }
  }

  /** Within the cap, a quarantined channel uploads nothing until it is released, recorded or not. */
  lemma {:induction false} QuarantineUploadsNothing(l: Ledger, c: Channel, steps: seq<Step>)
    requires Clocked(c) && 0 <= c.dailyCap && WithinCap(c)
    requires c.health == QUARANTINE && ValidRun(c, steps) && NoRelease(steps)
    ensures Booked(l, c, steps).uploads <= l.uploads
    decreases |steps|
  {
    if |steps| > 0 {
      assert !steps[0].SRelease?;
      ClockedStep(c, steps[0]);
      CapStep(c, steps[0]);
      QuarantineStep(c, steps[0]);
      CapStaysNonNegative(c, steps[0]);
      QuarantineUploadsNothing(Book(l, c, steps[0]), Apply(c, steps[0]), steps[1..]);
    }
  }

  /** A row left from yesterday and one made today: two uploads on one day under a cap of one. */
  lemma CarriedUploadEscapesCap()
    ensures var steps := [SBegin(0), SNewDay(10, 10), SFinish(0, Recorded), SBegin(1), SFinish(1, Recorded)];
            && ValidRun(Fresh(1), steps)
            && Booked(Ledger(0, 0, 0, 0), Fresh(1), steps) == Ledger(2, 1, 0, 0)
            && After(Fresh(1), steps).dailyCap == 1
  {
    var c0, l0, l1 := Fresh(1), Ledger(0, 0, 0, 0), Ledger(1, 1, 0, 0);
    var c1 := Apply(c0, SBegin(0));
    var c2 := Apply(c1, SNewDay(10, 10));
    assert PostedToday(c2) == {};
    var c3 := Apply(c2, SFinish(0, Recorded));
    FinishCounts(c2, 0, Recorded);
    assert Book(l0, c2, SFinish(0, Recorded)) == l1;
    var c4 := Apply(c3, SBegin(1));
    BeginKeepsCount(c3, 1);
    assert Book(l1, c4, SFinish(1, Recorded)) == Ledger(2, 1, 0, 0);
    var r4 := [SFinish(1, Recorded)];
    RunCons(l1, c4, r4, []);
    var r3 := [SBegin(1)] + r4;
    RunCons(l1, c3, r3, r4);
    var r2 := [SFinish(0, Recorded)] + r3;
    RunCons(l0, c2, r2, r3);
    var r1 := [SNewDay(10, 10)] + r2;
    RunCons(l0, c1, r1, r2);
    var r0 := [SBegin(0)] + r1;
    RunCons(l0, c0, r0, r1);
    assert r0 == [SBegin(0), SNewDay(10, 10), SFinish(0, Recorded), SBegin(1), SFinish(1, Recorded)];
  }

  /** An upload whose recording fails, and its retry: one content goes up twice under a cap of one. */
  lemma LostUploadEscapesCap()
    ensures var steps := [SBegin(0), SFinish(0, Unrecorded), SBegin(0), SFinish(0, Recorded)];
            && ValidRun(Fresh(1), steps)
            && Booked(Ledger(0, 0, 0, 0), Fresh(1), steps) == Ledger(2, 0, 0, 1)
            && After(Fresh(1), steps).dailyCap == 1
  {
    var c0, l0, l1 := Fresh(1), Ledger(0, 0, 0, 0), Ledger(1, 0, 0, 1);
    var c1 := Apply(c0, SBegin(0));
    BeginKeepsCount(c0, 0);
    assert PostedToday(c0) == {};
    var c2 := Apply(c1, SFinish(0, Unrecorded));
    FinishCounts(c1, 0, Unrecorded);
    assert Book(l0, c1, SFinish(0, Unrecorded)) == l1;
    var c3 := Apply(c2, SBegin(0));
    BeginKeepsCount(c2, 0);
    assert Book(l1, c3, SFinish(0, Recorded)) == Ledger(2, 0, 0, 1);
    var r3 := [SFinish(0, Recorded)];
    RunCons(l1, c3, r3, []);
    var r2 := [SBegin(0)] + r3;
    RunCons(l1, c2, r2, r3);
    var r1 := [SFinish(0, Unrecorded)] + r2;
    RunCons(l0, c1, r1, r2);
    var r0 := [SBegin(0)] + r1;
    RunCons(l0, c0, r0, r1);
    assert r0 == [SBegin(0), SFinish(0, Unrecorded), SBegin(0), SFinish(0, Recorded)];
  }
}
