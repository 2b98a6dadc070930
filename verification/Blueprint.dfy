/**
 * Making an order's blueprints: channels by output types by quantity, assets handed out in
 * rotation.  A restarted run finds the rows an earlier one left and goes on.
 */
module Blueprint {
  import opened Wrappers
  import opened ScenePlan

  datatype Output = Image | Video

  datatype Id = Id(channel: nat, number: nat)

  datatype Row = Row(output: Output, scenes: seq<Scene>)

  /** What the orders, channels and selections say; the same for every run. */
  datatype Inputs = Inputs(channels: seq<nat>, outputs: seq<Output>, quantity: nat,
                           durationSec: Option<int>, assets: seq<nat>)

  function AssetsNeeded(output: Output, durationSec: Option<int>): (n: nat)
    ensures n >= 1
  {
    if output == Image then 1 else SceneCount(durationSec)
  }

  /** n elements of the list, going round, from position `start`. */
  function Rotation(list: seq<nat>, start: nat, n: nat): (picked: seq<nat>)
    ensures |picked| == if |list| == 0 then 0 else n
  {
    if |list| == 0 then [] else seq(n, i requires 0 <= i < n => list[(start + i) % |list|])
  }

  method PickRotating(list: seq<nat>, start: nat, n: nat) returns (picked: seq<nat>)
    ensures picked == Rotation(list, start, n)
  {
    if |list| == 0 {
      return [];
    }
    picked := [];
    var i := 0;
    while i < n
      invariant 0 <= i <= n && |picked| == i
      invariant forall m :: 0 <= m < i ==> picked[m] == list[(start + m) % |list|]
    {
      picked := picked + [list[(start + i) % |list|]];
      i := i + 1;
    }
  }

  // ---------- The slots of an order ----------

  datatype Slot = Slot(id: Id, output: Output)

  /** The slots before position (c, o, n) of the three nested loops. */
  function Slots(inp: Inputs, c: nat, o: nat, n: nat): seq<Slot>
    requires c <= |inp.channels| && o <= |inp.outputs|
    requires (o > 0 || n > 0 ==> c < |inp.channels|) && (n > 0 ==> o < |inp.outputs|)
    decreases c, o, n
  {
    if n > 0 then Slots(inp, c, o, n - 1) + [Slot(Id(inp.channels[c], o * inp.quantity + n), inp.outputs[o])]
    else if o > 0 then Slots(inp, c, o - 1, inp.quantity)
    else if c > 0 then Slots(inp, c - 1, |inp.outputs|, 0)
    else []
  }

  function AllSlots(inp: Inputs): seq<Slot> {
    Slots(inp, |inp.channels|, 0, 0)
  }

  /** The assets handed out to these slots. */
  function Needed(slots: seq<Slot>, durationSec: Option<int>): nat {
    if |slots| == 0 then 0
    else Needed(slots[..|slots| - 1], durationSec) + AssetsNeeded(slots[|slots| - 1].output, durationSec)
  }

  /** The row of a slot when the rotation stands at `cursor`. */
  function Planned(inp: Inputs, output: Output, cursor: nat): Row {
    var picked := Rotation(inp.assets, cursor, AssetsNeeded(output, inp.durationSec));
    Row(output, if output == Video then Plan(inp.durationSec, picked) else [])
  }

  /** The table after these slots, starting from what an earlier run left. */
  function Filled(inp: Inputs, rows: map<Id, Row>, slots: seq<Slot>): map<Id, Row> {
    if |slots| == 0 then rows
    else
      var before, slot := slots[..|slots| - 1], slots[|slots| - 1];
      var table := Filled(inp, rows, before);
      if slot.id in table then table
      else table[slot.id := Planned(inp, slot.output, Needed(before, inp.durationSec))]
  }

  /** What a run reports: a row for each slot, in order. */
  function Reported(table: map<Id, Row>, slots: seq<Slot>): seq<(Id, Row)>
    requires forall k :: 0 <= k < |slots| ==> slots[k].id in table
  {
    seq(|slots|, k requires 0 <= k < |slots| => (slots[k].id, table[slots[k].id]))
  }

  // ---------- The run ----------

  datatype Run = Run(cursor: nat, rows: map<Id, Row>, created: seq<(Id, Row)>)

  /** Where a run stands after these slots. */
  ghost predicate Done(inp: Inputs, start: map<Id, Row>, slots: seq<Slot>, run: Run) {
    && run.cursor == Needed(slots, inp.durationSec)
    && run.rows == Filled(inp, start, slots)
    && (forall k :: 0 <= k < |slots| ==> slots[k].id in run.rows)
    && run.created == Reported(run.rows, slots)
  }

  lemma Push(slots: seq<Slot>, slot: Slot)
    ensures (slots + [slot])[..|slots + [slot]| - 1] == slots
  {}

  /** One slot: the existing row, or a new one. */
  method FillSlot(inp: Inputs, run: Run, slot: Slot, ghost start: map<Id, Row>, ghost slots: seq<Slot>)
    returns (next: Run)
    requires Done(inp, start, slots, run)
    ensures Done(inp, start, slots + [slot], next)
  {
    Push(slots, slot);
    var need := AssetsNeeded(slot.output, inp.durationSec);
    if slot.id in run.rows {
      next := Run(run.cursor + need, run.rows, run.created + [(slot.id, run.rows[slot.id])]);
    } else {
      var picked := PickRotating(inp.assets, run.cursor, need);
      var scenes := [];
      if slot.output == Video {
        scenes := BuildScenePlan(inp.durationSec, picked);
      }
      var row := Row(slot.output, scenes);
      next := Run(run.cursor + need, run.rows[slot.id := row], run.created + [(slot.id, row)]);
    }
  }

  lemma NextSlot(inp: Inputs, c: nat, o: nat, n: nat, start: nat)
    requires c < |inp.channels| && o < |inp.outputs| && start == o * inp.quantity
    ensures Slots(inp, c, o, n + 1) == Slots(inp, c, o, n) + [Slot(Id(inp.channels[c], start + n + 1), inp.outputs[o])]
  {
  }

  lemma OutputFull(inp: Inputs, c: nat, o: nat, start: nat)
    requires c < |inp.channels| && o < |inp.outputs| && start == o * inp.quantity
    ensures Slots(inp, c, o, inp.quantity) == Slots(inp, c, o + 1, 0) && start + inp.quantity == (o + 1) * inp.quantity
  {
  }

  /** The body of the innermost loop: slot n of one channel and output type. */
  method FillNumber(inp: Inputs, c: nat, o: nat, n: nat, number: nat, run: Run, ghost start: map<Id, Row>)
    returns (next: Run)
    requires c < |inp.channels| && o < |inp.outputs| && number == o * inp.quantity
    requires Done(inp, start, Slots(inp, c, o, n), run)
    ensures Done(inp, start, Slots(inp, c, o, n + 1), next)
  {
    NextSlot(inp, c, o, n, number);
    next := FillSlot(inp, run, Slot(Id(inp.channels[c], number + n + 1), inp.outputs[o]), start, Slots(inp, c, o, n));
  }

  /** The innermost loop: one channel, one output type, numbers going on from the type before. */
  method FillOutput(inp: Inputs, c: nat, o: nat, number: nat, run: Run, ghost start: map<Id, Row>)
    returns (next: Run, last: nat)
    requires c < |inp.channels| && o < |inp.outputs| && number == o * inp.quantity
    requires Done(inp, start, Slots(inp, c, o, 0), run)
    ensures Done(inp, start, Slots(inp, c, o + 1, 0), next) && last == (o + 1) * inp.quantity
  {
    next := run;
    var n := 0;
    while n < inp.quantity
      invariant 0 <= n <= inp.quantity
      invariant Done(inp, start, Slots(inp, c, o, n), next)
    {
      next := FillNumber(inp, c, o, n, number, next, start);
      n := n + 1;
    }
    OutputFull(inp, c, o, number);
    last := number + n;
  }

  /** The whole order, from whatever rows there are. */
  method Process(inp: Inputs, start: map<Id, Row>) returns (rows: map<Id, Row>, created: seq<(Id, Row)>)
    ensures rows == Filled(inp, start, AllSlots(inp))
    ensures forall k :: 0 <= k < |AllSlots(inp)| ==> AllSlots(inp)[k].id in rows
    ensures created == Reported(rows, AllSlots(inp))
  {
    var run := Run(0, start, []);
    var c := 0;
    while c < |inp.channels|
      invariant 0 <= c <= |inp.channels|
      invariant Done(inp, start, Slots(inp, c, 0, 0), run)
    {
      var number := 0;
      var o := 0;
      while o < |inp.outputs|
        invariant 0 <= o <= |inp.outputs| && number == o * inp.quantity
        invariant Done(inp, start, Slots(inp, c, o, 0), run)
      {
        run, number := FillOutput(inp, c, o, number, run, start);
        o := o + 1;
      }
      assert Slots(inp, c, |inp.outputs|, 0) == Slots(inp, c + 1, 0, 0);
      c := c + 1;
    }
    rows, created := run.rows, run.created;
  }

  // ---------- Which rows there are ----------

  ghost predicate DistinctChannels(inp: Inputs) {
    forall c, d :: 0 <= c < d < |inp.channels| ==> inp.channels[c] != inp.channels[d]
  }

  ghost predicate DistinctIds(slots: seq<Slot>) {
    forall j, k :: 0 <= j < k < |slots| ==> slots[j].id != slots[k].id
  }

  ghost predicate HasId(slots: seq<Slot>, id: Id) {
    exists k :: 0 <= k < |slots| && slots[k].id == id
  }

  /** The rows of the first c channels, and of the next one up to number m. */
  ghost predicate Reached(inp: Inputs, c: nat, m: nat, id: Id)
    requires c <= |inp.channels|
  {
    || (exists d :: 0 <= d < c && inp.channels[d] == id.channel && 1 <= id.number <= |inp.outputs| * inp.quantity)
    || (c < |inp.channels| && inp.channels[c] == id.channel && 1 <= id.number <= m)
  }

  lemma {:induction false} SlotsReach(inp: Inputs, c: nat, o: nat, n: nat)
    requires c <= |inp.channels| && o <= |inp.outputs| && n <= inp.quantity && DistinctChannels(inp)
    requires (o > 0 || n > 0 ==> c < |inp.channels|) && (n > 0 ==> o < |inp.outputs|)
    ensures forall id :: HasId(Slots(inp, c, o, n), id) <==> Reached(inp, c, o * inp.quantity + n, id)
    ensures DistinctIds(Slots(inp, c, o, n))
    decreases c, o, n
  {
    if n > 0 {
      SlotsReach(inp, c, o, n - 1);
      NextReached(inp, c, o, Slots(inp, c, o, n - 1), o * inp.quantity + n);
    } else if o > 0 {
      SlotsReach(inp, c, o - 1, inp.quantity);
      NextMultiple(o - 1, inp.quantity);
    } else if c > 0 {
      SlotsReach(inp, c - 1, |inp.outputs|, 0);
      ChannelReached(inp, c - 1, c, |inp.outputs| * inp.quantity);
    }
  }

  lemma NextReached(inp: Inputs, c: nat, o: nat, before: seq<Slot>, m: nat)
    requires c < |inp.channels| && o < |inp.outputs| && 0 < m && DistinctChannels(inp)
    requires forall id :: HasId(before, id) <==> Reached(inp, c, m - 1, id)
    requires DistinctIds(before)
    ensures var slots := before + [Slot(Id(inp.channels[c], m), inp.outputs[o])];
            && (forall id :: HasId(slots, id) <==> Reached(inp, c, m, id))
            && DistinctIds(slots)
  {
    var slot := Slot(Id(inp.channels[c], m), inp.outputs[o]);
    assert !Reached(inp, c, m - 1, slot.id);
    assert !HasId(before, slot.id);
    forall id ensures HasId(before + [slot], id) <==> Reached(inp, c, m, id) {
      HasIdPush(before, slot, id);
    }
  }

  lemma HasIdPush(slots: seq<Slot>, slot: Slot, id: Id)
    ensures HasId(slots + [slot], id) <==> HasId(slots, id) || id == slot.id
  {
    assert (slots + [slot])[|slots|] == slot;
    if HasId(slots, id) {
      var k :| 0 <= k < |slots| && slots[k].id == id;
      assert (slots + [slot])[k].id == id;
    }
  }

  lemma ChannelReached(inp: Inputs, c: nat, next: nat, all: nat)
    requires next == c + 1 <= |inp.channels| && all == |inp.outputs| * inp.quantity
    ensures forall id :: Reached(inp, c, all, id) <==> Reached(inp, next, 0, id)
  {
  }

  /** The order makes the rows 1..outputs*quantity of each of its channels, each once. */
  lemma SlotsOfOrder(inp: Inputs)
    requires DistinctChannels(inp)
    ensures DistinctIds(AllSlots(inp))
    ensures forall id :: HasId(AllSlots(inp), id) <==>
              id.channel in inp.channels && 1 <= id.number <= |inp.outputs| * inp.quantity
  {
    SlotsReach(inp, |inp.channels|, 0, 0);
  }

  lemma {:induction false} SlotCount(inp: Inputs, c: nat, o: nat, n: nat)
    requires c <= |inp.channels| && o <= |inp.outputs| && n <= inp.quantity
    requires (o > 0 || n > 0 ==> c < |inp.channels|) && (n > 0 ==> o < |inp.outputs|)
    ensures |Slots(inp, c, o, n)| == c * (|inp.outputs| * inp.quantity) + o * inp.quantity + n
    decreases c, o, n
  {
    if n > 0 {
      SlotCount(inp, c, o, n - 1);
    } else if o > 0 {
      SlotCount(inp, c, o - 1, inp.quantity);
      NextMultiple(o - 1, inp.quantity);
    } else if c > 0 {
      SlotCount(inp, c - 1, |inp.outputs|, 0);
      NextMultiple(c - 1, |inp.outputs| * inp.quantity);
    }
  }

  // ---------- What the rows say ----------

  /** Existing rows stay, and every slot has a row. */
  lemma {:induction false} FilledRows(inp: Inputs, start: map<Id, Row>, slots: seq<Slot>, id: Id)
    ensures id in Filled(inp, start, slots) <==> id in start || HasId(slots, id)
    ensures id in start ==> Filled(inp, start, slots)[id] == start[id]
    decreases |slots|
  {
    if |slots| > 0 {
      var before, slot := slots[..|slots| - 1], slots[|slots| - 1];
      FilledRows(inp, start, before, id);
      HasIdPush(before, slot, id);
      assert slots == before + [slot];
    }
  }

  /** Each missing slot gets the plan of its own place in the rotation, whatever else was missing. */
  lemma {:induction false} FilledPlans(inp: Inputs, start: map<Id, Row>, slots: seq<Slot>, k: nat)
    requires DistinctIds(slots) && k < |slots| && slots[k].id !in start
    ensures slots[k].id in Filled(inp, start, slots)
    ensures Filled(inp, start, slots)[slots[k].id] == Planned(inp, slots[k].output, Needed(slots[..k], inp.durationSec))
    decreases |slots|
  {
    var before := slots[..|slots| - 1];
    if k < |before| {
      FilledPlans(inp, start, before, k);
      assert slots[..k] == before[..k] && before[k] == slots[k];
    } else {
      FilledRows(inp, start, before, slots[k].id);
      assert slots[..k] == before;
    }
  }

  ghost predicate Within(part: map<Id, Row>, whole: map<Id, Row>) {
    forall id :: id in part ==> id in whole && part[id] == whole[id]
  }

  /** From any subset of its own rows a run ends with the very table of an uninterrupted one. */
  lemma RestartCompletes(inp: Inputs, start: map<Id, Row>)
    requires DistinctChannels(inp) && Within(start, Filled(inp, map[], AllSlots(inp)))
    ensures Filled(inp, start, AllSlots(inp)) == Filled(inp, map[], AllSlots(inp))
  {
    var slots := AllSlots(inp);
    SlotsOfOrder(inp);
    var again, once := Filled(inp, start, slots), Filled(inp, map[], slots);
    forall id
      ensures id in again <==> id in once
      ensures id in once ==> again[id] == once[id]
    {
      FilledRows(inp, start, slots, id);
      FilledRows(inp, map[], slots, id);
      if id in once && id !in start {
        var k :| 0 <= k < |slots| && slots[k].id == id;
        FilledPlans(inp, start, slots, k);
        FilledPlans(inp, map[], slots, k);
      }
    }
  }

  /** A run that stopped after any number of slots leaves such a subset. */
  lemma {:induction false} StoppedRunLeavesPart(inp: Inputs, slots: seq<Slot>, n: nat)
    requires n <= |slots|
    ensures Within(Filled(inp, map[], slots[..n]), Filled(inp, map[], slots))
    decreases |slots|
  {
    if n < |slots| {
      assert slots[..|slots| - 1][..n] == slots[..n];
      StoppedRunLeavesPart(inp, slots[..|slots| - 1], n);
    } else {
      assert slots[..n] == slots;
    }
  }

  /** Interrupted anywhere and run again: the same table; and a third run changes nothing. */
  lemma RestartAnywhere(inp: Inputs, n: nat)
    requires DistinctChannels(inp) && n <= |AllSlots(inp)|
    ensures Filled(inp, Filled(inp, map[], AllSlots(inp)[..n]), AllSlots(inp)) == Filled(inp, map[], AllSlots(inp))
  {
    StoppedRunLeavesPart(inp, AllSlots(inp), n);
    RestartCompletes(inp, Filled(inp, map[], AllSlots(inp)[..n]));
  }

  // ---------- Even use of the assets ----------

  /** The assets handed out to the slots, in order. */
  ghost function HandedOut(inp: Inputs, slots: seq<Slot>): seq<nat> {
    if |slots| == 0 then []
    else
      var before := slots[..|slots| - 1];
      HandedOut(inp, before)
      + Rotation(inp.assets, Needed(before, inp.durationSec), AssetsNeeded(slots[|slots| - 1].output, inp.durationSec))
  }

  lemma RotationsJoin(list: seq<nat>, m: nat, n: nat)
    ensures Rotation(list, 0, m) + Rotation(list, m, n) == Rotation(list, 0, m + n)
  {
    var whole, parts := Rotation(list, 0, m + n), Rotation(list, 0, m) + Rotation(list, m, n);
    forall i | 0 <= i < |whole| ensures whole[i] == parts[i] {
      if i >= m { assert parts[i] == Rotation(list, m, n)[i - m]; }
    }
  }

  lemma {:induction false} HandedOutIsRotation(inp: Inputs, slots: seq<Slot>)
    ensures HandedOut(inp, slots) == Rotation(inp.assets, 0, Needed(slots, inp.durationSec))
    decreases |slots|
  {
    if |slots| > 0 {
      var before := slots[..|slots| - 1];
      HandedOutIsRotation(inp, before);
      RotationsJoin(inp.assets, Needed(before, inp.durationSec),
                    AssetsNeeded(slots[|slots| - 1].output, inp.durationSec));
    }
  }

  lemma DivStep(n: nat, l: nat)
    requires 0 < l && 0 < n
    ensures if (n - 1) % l + 1 < l then n / l == (n - 1) / l && n % l == (n - 1) % l + 1
            else n / l == (n - 1) / l + 1 && n % l == 0
  {
    var q, r := (n - 1) / l, (n - 1) % l;
    assert n - 1 == l * q + r;
    if r + 1 < l {
      DivUnique(n, l, q, r + 1);
    } else {
      assert l * (q + 1) == l * q + l;
      DivUnique(n, l, q + 1, 0);
    }
  }

  lemma DivUnique(n: nat, l: nat, q: nat, r: nat)
    requires 0 < l && r < l && n == l * q + r
    ensures n / l == q && n % l == r
  {
    var d := n / l - q;
    assert n == l * (n / l) + n % l;
    assert l * d == l * (n / l) - l * q;
    SmallMultiple(l, d);
  }

  lemma SmallMultiple(l: nat, d: int)
    requires 0 < l * d + l && l * d < l
    ensures d == 0
  {
    if d >= 1 {
      MulGrows(l, d, 1);
    } else if d <= -1 {
      MulGrows(l, -d, 1);
    }
  }

  /** How often the asset at position p is handed out. */
  lemma {:induction false} UsesInRotation(list: seq<nat>, n: nat, p: nat)
    requires p < |list| && forall i, j :: 0 <= i < j < |list| ==> list[i] != list[j]
    ensures multiset(Rotation(list, 0, n))[list[p]] == n / |list| + if p < n % |list| then 1 else 0
    decreases n
  {
    if n == 0 {
      DivUnique(0, |list|, 0, 0);
    } else {
      UsesInRotation(list, n - 1, p);
      DivStep(n, |list|);
      var last := (n - 1) % |list|;
      assert Rotation(list, 0, n) == Rotation(list, 0, n - 1) + [list[last]];
      assert p == last || list[p] != list[last];
    }
  }

  /** No asset is handed out two times more often than another. */
  lemma EvenUse(inp: Inputs, slots: seq<Slot>, p: nat, q: nat)
    requires p < |inp.assets| && q < |inp.assets|
    requires forall i, j :: 0 <= i < j < |inp.assets| ==> inp.assets[i] != inp.assets[j]
    ensures var uses := multiset(HandedOut(inp, slots)); uses[inp.assets[p]] <= uses[inp.assets[q]] + 1
  {
    HandedOutIsRotation(inp, slots);
    UsesInRotation(inp.assets, Needed(slots, inp.durationSec), p);
    UsesInRotation(inp.assets, Needed(slots, inp.durationSec), q);
  }

  /** The assets the scenes of these slots show, in order. */
  ghost function Shown(table: map<Id, Row>, slots: seq<Slot>): seq<Option<nat>>
    requires forall k :: 0 <= k < |slots| ==> slots[k].id in table
  {
    if |slots| == 0 then []
    else Shown(table, slots[..|slots| - 1]) + AssetsOf(table[slots[|slots| - 1].id].scenes)
  }

  ghost function AssetsOf(scenes: seq<Scene>): seq<Option<nat>> {
    seq(|scenes|, i requires 0 <= i < |scenes| => scenes[i].fromAsset)
  }

  ghost function Somes(list: seq<nat>): seq<Option<nat>> {
    seq(|list|, i requires 0 <= i < |list| => Some(list[i]))
  }

  /** A video asks for as many assets as it has scenes, so each scene shows its own. */
  lemma PlanShowsPicked(durationSec: Option<int>, picked: seq<nat>)
    requires |picked| == SceneCount(durationSec)
    ensures AssetsOf(Plan(durationSec, picked)) == Somes(picked)
  {
    var plan := Plan(durationSec, picked);
    forall i | 0 <= i < |plan| ensures plan[i].fromAsset == Some(picked[i]) {
      DivUnique(i, |picked|, 0, i);
    }
  }

  /** In a video order the scenes of the finished table, over all blueprints, show the assets evenly. */
  lemma {:induction false} VideosShowHandedOut(inp: Inputs, table: map<Id, Row>, slots: seq<Slot>)
    requires |inp.assets| > 0
    requires forall k :: 0 <= k < |slots| ==> slots[k].output == Video && slots[k].id in table
    requires forall k :: 0 <= k < |slots| ==>
        table[slots[k].id] == Planned(inp, Video, Needed(slots[..k], inp.durationSec))
    ensures Shown(table, slots) == Somes(HandedOut(inp, slots))
    decreases |slots|
  {
    if |slots| > 0 {
      var before, last := slots[..|slots| - 1], slots[|slots| - 1];
      forall k | 0 <= k < |before| ensures before[..k] == slots[..k] && before[k] == slots[k] {
      }
      VideosShowHandedOut(inp, table, before);
      var picked := Rotation(inp.assets, Needed(before, inp.durationSec), SceneCount(inp.durationSec));
      PlanShowsPicked(inp.durationSec, picked);
      SomesJoin(HandedOut(inp, before), picked);
    }
  }

  lemma SomesJoin(a: seq<nat>, b: seq<nat>)
    ensures Somes(a + b) == Somes(a) + Somes(b)
  {
  }

  lemma VideoOrderShowsRotation(inp: Inputs)
    requires DistinctChannels(inp) && inp.outputs == [Video] && |inp.assets| > 0
    ensures var slots := AllSlots(inp);
            var table := Filled(inp, map[], slots);
            && (forall k :: 0 <= k < |slots| ==> slots[k].id in table)
            && Shown(table, slots) == Somes(HandedOut(inp, slots))
  {
    var slots := AllSlots(inp);
    SlotsOfOrder(inp);
    AllVideo(inp, |inp.channels|, 0, 0);
    forall k | 0 <= k < |slots|
      ensures slots[k].id in Filled(inp, map[], slots)
      ensures Filled(inp, map[], slots)[slots[k].id] == Planned(inp, Video, Needed(slots[..k], inp.durationSec))
    {
      FilledPlans(inp, map[], slots, k);
    }
    VideosShowHandedOut(inp, Filled(inp, map[], slots), slots);
  }

  lemma {:induction false} SomesCount(list: seq<nat>, x: nat)
    ensures multiset(Somes(list))[Some(x)] == multiset(list)[x]
    decreases |list|
  {
    if |list| > 0 {
      var n := |list| - 1;
      SomesCount(list[..n], x);
      assert Somes(list) == Somes(list[..n]) + [Some(list[n])];
      assert list == list[..n] + [list[n]];
    }
  }

  /**
   * In the finished table of a video order, from whatever rows of its own the run started, the
   * numbers of scenes showing any two selected assets differ by at most one.
   */
  lemma ScenesUseAssetsEvenly(inp: Inputs, start: map<Id, Row>, p: nat, q: nat)
    requires DistinctChannels(inp) && inp.outputs == [Video] && Within(start, Filled(inp, map[], AllSlots(inp)))
    requires p < |inp.assets| && q < |inp.assets|
    requires forall i, j :: 0 <= i < j < |inp.assets| ==> inp.assets[i] != inp.assets[j]
    ensures var slots, table := AllSlots(inp), Filled(inp, start, AllSlots(inp));
            && (forall k :: 0 <= k < |slots| ==> slots[k].id in table)
            && var shown := multiset(Shown(table, slots));
               shown[Some(inp.assets[p])] <= shown[Some(inp.assets[q])] + 1
  {
    RestartCompletes(inp, start);
    VideoOrderShowsRotation(inp);
    var handed := HandedOut(inp, AllSlots(inp));
    SomesCount(handed, inp.assets[p]);
    SomesCount(handed, inp.assets[q]);
    EvenUse(inp, AllSlots(inp), p, q);
  }

  lemma {:induction false} AllVideo(inp: Inputs, c: nat, o: nat, n: nat)
    requires c <= |inp.channels| && o <= |inp.outputs| && inp.outputs == [Video]
    requires (o > 0 || n > 0 ==> c < |inp.channels|) && (n > 0 ==> o < |inp.outputs|)
    ensures forall k :: 0 <= k < |Slots(inp, c, o, n)| ==> Slots(inp, c, o, n)[k].output == Video
    decreases c, o, n
  {
    if n > 0 {
      AllVideo(inp, c, o, n - 1);
    } else if o > 0 {
      AllVideo(inp, c, o - 1, inp.quantity);
    } else if c > 0 {
      AllVideo(inp, c - 1, |inp.outputs|, 0);
    }
  }

  /** The scenes of a plan go through its assets in order, over and over. */
  lemma AssetsRecur(durationSec: Option<int>, picked: seq<nat>, i: nat)
    requires i < |Plan(durationSec, picked)| && |picked| > 0
    ensures var plan := Plan(durationSec, picked);
            plan[i].fromAsset == if i < |picked| then Some(picked[i]) else plan[i - |picked|].fromAsset
  {
    RoundAgain(i, |picked|);
  }

  lemma RoundAgain(i: nat, l: nat)
    requires 0 < l
    ensures i % l == if i < l then i else (i - l) % l
  {
    if i < l {
      DivUnique(i, l, 0, i);
    } else {
      var q, r := (i - l) / l, (i - l) % l;
      assert l * (q + 1) == l * q + l;
      DivUnique(i, l, q + 1, r);
    }
  }

  // ---------- Where the cursor and the slots stand ----------

  function CountOf(slots: seq<Slot>, output: Output): nat {
    if |slots| == 0 then 0
    else CountOf(slots[..|slots| - 1], output) + if slots[|slots| - 1].output == output then 1 else 0
  }

  lemma OneMore(n: nat, a: nat)
    ensures n * (a + 1) == n * a + n
  {
  }

  /** The cursor moves by one for an image and by the number of scenes for a video. */
  lemma {:induction false} CursorCounts(slots: seq<Slot>, durationSec: Option<int>)
    ensures Needed(slots, durationSec) == CountOf(slots, Image) + SceneCount(durationSec) * CountOf(slots, Video)
    decreases |slots|
  {
    if |slots| > 0 {
      var before, scenes := slots[..|slots| - 1], SceneCount(durationSec);
      CursorCounts(before, durationSec);
      OneMore(scenes, CountOf(before, Video));
      assert CountOf(slots, Image) + CountOf(slots, Video) == CountOf(before, Image) + CountOf(before, Video) + 1;
    }
  }

  lemma SlotsGrow(inp: Inputs, c: nat, o: nat, n: nat, m: nat)
    requires c < |inp.channels| && o < |inp.outputs| && n <= m
    ensures Slots(inp, c, o, n) <= Slots(inp, c, o, m)
    decreases m
  {
    if n < m { SlotsGrow(inp, c, o, n, m - 1); }
  }

  lemma {:induction false} OutputsGrow(inp: Inputs, c: nat, o: nat, p: nat)
    requires c < |inp.channels| && o <= p <= |inp.outputs|
    ensures Slots(inp, c, o, 0) <= Slots(inp, c, p, 0)
    decreases p
  {
    if o < p {
      OutputsGrow(inp, c, o, p - 1);
      SlotsGrow(inp, c, p - 1, 0, inp.quantity);
    }
  }

  lemma {:induction false} ChannelsGrow(inp: Inputs, c: nat, d: nat)
    requires c <= d <= |inp.channels|
    ensures Slots(inp, c, 0, 0) <= Slots(inp, d, 0, 0)
    decreases d
  {
    if c < d {
      ChannelsGrow(inp, c, d - 1);
      OutputsGrow(inp, d - 1, 0, |inp.outputs|);
    }
  }

  /**
   * Slot by slot: channel after channel, in each the output types in order, `quantity` of each, numbered
   * through from one.
   */
  lemma SlotAt(inp: Inputs, c: nat, o: nat, n: nat)
    requires c < |inp.channels| && o < |inp.outputs| && n < inp.quantity
    ensures var k := c * (|inp.outputs| * inp.quantity) + o * inp.quantity + n;
            && k < |AllSlots(inp)|
            && AllSlots(inp)[k] == Slot(Id(inp.channels[c], o * inp.quantity + n + 1), inp.outputs[o])
  {
    SlotCount(inp, c, o, n);
    SlotsGrow(inp, c, o, n + 1, inp.quantity);
    OutputsGrow(inp, c, o + 1, |inp.outputs|);
    ChannelsGrow(inp, c + 1, |inp.channels|);
    var here := Slots(inp, c, o, n + 1);
    assert here == Slots(inp, c, o, n) + [Slot(Id(inp.channels[c], o * inp.quantity + n + 1), inp.outputs[o])];
    assert here <= Slots(inp, c, o, inp.quantity) == Slots(inp, c, o + 1, 0);
    assert here <= Slots(inp, c, |inp.outputs|, 0) == Slots(inp, c + 1, 0, 0);
    assert here <= AllSlots(inp);
  }
}
