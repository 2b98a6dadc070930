/**
 * The scene plan of a video: how many scenes, how long each, from which asset.
 */
module ScenePlan {
  import opened Wrappers

  const SceneMinMs := 3000
  const SceneMaxMs := 6000
  const DefaultSceneMs := 4000

  /** JavaScript's Math.round of a quotient: halves go up. */
  function Round(a: int, b: int): int
    requires 0 < b
  {
    (2 * a + b) / (2 * b)
  }

  function Max(a: int, b: int): int { if a >= b then a else b }

  function Min(a: int, b: int): int { if a <= b then a else b }

  function TotalMs(durationSec: Option<int>): int {
    (if durationSec.Some? then durationSec.value else 30) * 1000
  }

  /** The number of scenes the cost estimate counts, and the number of assets a video asks for. */
  function SceneCount(durationSec: Option<int>): (count: nat)
    ensures count >= 1
  {
    Max(1, Round(TotalMs(durationSec), DefaultSceneMs))
  }

  datatype Scene = Scene(number: nat, durationMs: int, fromAsset: Option<nat>, useReal: bool)

  function BaseMs(total: int, count: nat): int
    requires count >= 1
  {
    Min(SceneMaxMs, Max(SceneMinMs, Round(total, count)))
  }

  /** What is left for the last scene. */
  function LeftForLast(total: int, count: nat): int
    requires count >= 1
  {
    total - (count - 1) * BaseMs(total, count)
  }

  function SceneAt(total: int, count: nat, picked: seq<nat>, i: nat): Scene
    requires i < count
  {
    var asset := if |picked| > 0 then Some(picked[i % |picked|]) else None;
    Scene(i + 1,
          if i == count - 1 then Max(SceneMinMs, LeftForLast(total, count)) else BaseMs(total, count),
          asset,
          i % 2 == 0 && asset.Some?)
  }

  function Plan(durationSec: Option<int>, picked: seq<nat>): (plan: seq<Scene>)
    ensures |plan| == SceneCount(durationSec)
  {
    var count := SceneCount(durationSec);
    seq(count, i requires 0 <= i < count => SceneAt(TotalMs(durationSec), count, picked, i))
  }

  method BuildScenePlan(durationSec: Option<int>, picked: seq<nat>) returns (plan: seq<Scene>)
    ensures plan == Plan(durationSec, picked)
  {
    var totalMs := TotalMs(durationSec);
    var count := Max(1, Round(totalMs, DefaultSceneMs));
    var base := Min(SceneMaxMs, Max(SceneMinMs, Round(totalMs, count)));
    plan := [];
    var remaining := totalMs;
    var i := 0;
    while i < count
      invariant 0 <= i <= count && |plan| == i
      invariant i < count ==> remaining == totalMs - i * base
      invariant forall m :: 0 <= m < i ==> plan[m] == SceneAt(totalMs, count, picked, m)
    {
      var isLast := i == count - 1;
      var durationMs := if isLast then Max(SceneMinMs, remaining) else base;
      remaining := remaining - durationMs;
      var asset := if |picked| > 0 then Some(picked[i % Max(1, |picked|)]) else None;
      var useReal := i % 2 == 0 && asset.Some?;
      plan := plan + [Scene(i + 1, durationMs, asset, useReal)];
      NextMultiple(i, base);
      i := i + 1;
    }
  }

  lemma NextMultiple(i: nat, base: int)
    ensures (i + 1) * base == i * base + base
  {}

  // ---------- How long the plan is ----------

  function Length(plan: seq<Scene>): int {
    if |plan| == 0 then 0 else Length(plan[..|plan| - 1]) + plan[|plan| - 1].durationMs
  }

  lemma {:induction false} LengthOfEqual(plan: seq<Scene>, base: int)
    requires forall i :: 0 <= i < |plan| ==> plan[i].durationMs == base
    ensures Length(plan) == |plan| * base
  {
    if |plan| > 0 {
      LengthOfEqual(plan[..|plan| - 1], base);
      NextMultiple(|plan| - 1, base);
    }
  }

  lemma PlanLength(durationSec: Option<int>, picked: seq<nat>)
    ensures var total, count := TotalMs(durationSec), SceneCount(durationSec);
            Length(Plan(durationSec, picked)) == total + Max(0, SceneMinMs - LeftForLast(total, count))
  {
    var total, count, plan := TotalMs(durationSec), SceneCount(durationSec), Plan(durationSec, picked);
    LengthOfEqual(plan[..count - 1], BaseMs(total, count));
  }

  /** The number of scenes puts the duration within half a default scene of a whole number of them. */
  lemma CountBounds(total: int, count: nat)
    requires count == Max(1, Round(total, DefaultSceneMs))
    ensures total < 4000 * count + 2000
    ensures count > 1 || total >= 2000 ==> 4000 * count - 2000 <= total
  {
  }

  /** k is what rounding adds to 4000 in a scene; the rest falls on the last one. */
  lemma LastByExcess(c: nat, e: int, k: int)
    requires c >= 2 && 2 * c * k <= 2 * e + c < 2 * c * k + 2 * c
    requires e == -2000 || e == -1000 || e == 0 || e == 1000
    ensures -1000 <= k <= 1000
    ensures e == -2000 && c >= 4000 ==> k == 0
    ensures !(e == -2000 && c >= 4000) ==> 3000 <= 4000 + e - k * (c - 1) <= 6000
  {
    if k >= 1 {
      RoundedUp(c, e, k, c * k);
    } else if k <= -1 {
      RoundedDown(c, e, -k, c * -k);
    }
  }

  lemma RoundedUp(c: nat, e: int, k: nat, p: nat)
    requires c >= 2 && k >= 1 && p == c * k && 2 * p <= 2 * e + c
    requires e == -2000 || e == -1000 || e == 0 || e == 1000
    ensures k <= 1000 && e == 1000
    ensures 3000 <= 4000 + e - k * (c - 1) <= 6000
  {
    ProductParts(c, k);
  }

  lemma RoundedDown(c: nat, e: int, m: nat, p: nat)
    requires c >= 2 && m >= 1 && p == c * m && -2 * p <= 2 * e + c < 2 * c - 2 * p
    requires e == -2000 || e == -1000 || e == 0 || e == 1000
    ensures m <= 1000 && (e == -2000 || e == -1000) && !(e == -2000 && c >= 4000)
    ensures 3000 <= 4000 + e + m * (c - 1) <= 6000
  {
    var q := m * (c - 1);
    ProductParts(c, m);
    if e == -2000 && c <= 2000 {
      ShortLast(c, m);
    }
    DownBounds(c, e, m, p, q);
  }

  lemma ProductParts(c: nat, m: nat)
    requires c >= 2 && m >= 1
    ensures c * m >= c && c * m >= 2 * m && c * m >= 2 * m + c - 2 && m * (c - 1) == c * m - m >= 0
  {
    MulGrows(c - 2, m - 1, 0);
    assert (c - 2) * (m - 1) == c * m - 2 * m - c + 2;
    MulGrows(c, m, 1);
    MulGrows(m, c, 2);
    MulGrows(m, c - 1, 0);
  }

  /** The same with the products as numbers of their own. */
  lemma DownBounds(c: nat, e: int, m: nat, p: nat, q: nat)
    requires c >= 2 && m >= 1 && p >= c && p >= 2 * m && p >= 2 * m + c - 2 && q == p - m
    requires -2 * p <= 2 * e + c < 2 * c - 2 * p
    requires e == -2000 || e == -1000 || e == 0 || e == 1000
    requires e == -2000 && c <= 2000 ==> q >= 1000
    ensures m <= 1000 && (e == -2000 || e == -1000) && !(e == -2000 && c >= 4000)
    ensures 3000 <= 4000 + e + q <= 6000
  {
  }

  lemma MulGrows(a: int, b: int, m: int)
    requires 0 <= a && m <= b
    ensures a * b >= a * m
  {}

  lemma ShortLast(c: nat, m: nat)
    requires 2 <= c <= 2000 && 2 * (c * m) + c >= 4000
    ensures m * (c - 1) >= 1000
  {
    var short := m * (c - 1);
    assert c * m == short + m;
    if 2 * m >= 2002 - c {
      MulGrows(c - 1, 2 * m, 2002 - c);
      Swap(m, c);
      Parabola(c);
    }
  }

  lemma Parabola(c: nat)
    requires 2 <= c <= 2000
    ensures (c - 1) * (2002 - c) >= 2000
  {
    MulGrows(2000 - c, c - 2, 0);
    assert (c - 1) * (2002 - c) == (2000 - c) * (c - 2) + (c - 2) + 2000;
  }

  lemma Swap(m: nat, c: nat)
    ensures (c - 1) * (2 * m) == 2 * (m * (c - 1))
  {}

  /** Seconds are whole, so a duration is four seconds a scene and -2, -1, 0 or 1 second over. */
  lemma Excess(seconds: int, count: nat)
    requires count == Max(1, Round(seconds * 1000, DefaultSceneMs)) && count >= 2
    ensures var e := seconds * 1000 - 4000 * count;
            && (e == -2000 || e == -1000 || e == 0 || e == 1000)
            && (e == -2000 <==> seconds % 4 == 2)
            && (count >= 4000 && e == -2000 <==> seconds >= 15998 && seconds % 4 == 2)
  {
    WholeSeconds(seconds);
    var q := (seconds + 2) / 4;
    assert seconds + 2 == 4 * q + (seconds + 2) % 4 && count == q;
  }

  lemma WholeSeconds(seconds: int)
    ensures Round(seconds * 1000, DefaultSceneMs) == (seconds + 2) / 4
  {
    var q, r := (seconds + 2) / 4, (seconds + 2) % 4;
    assert 2 * (seconds * 1000) + 4000 == 8000 * q + 2000 * r;
  }

  /** With at least two scenes no clamp of the base applies, and what the last scene gets is known. */
  lemma LastScene(seconds: int, count: nat)
    requires count == Max(1, Round(seconds * 1000, DefaultSceneMs)) && count >= 2
    ensures var left := LeftForLast(seconds * 1000, count);
            && (left < SceneMinMs <==> seconds % 4 == 2 && seconds >= 15998)
            && (left < SceneMinMs ==> left == 2000)
            && left <= SceneMaxMs
  {
    var e := seconds * 1000 - 4000 * count;
    Excess(seconds, count);
    var k := LeftByExcess(seconds * 1000, count, e);
  }

  /** k is what rounding adds to 4000 in every scene but the last. */
  lemma LeftByExcess(total: int, c: nat, e: int) returns (k: int)
    requires c >= 2 && total == 4000 * c + e
    requires e == -2000 || e == -1000 || e == 0 || e == 1000
    ensures var left := LeftForLast(total, c);
            && (e == -2000 && c >= 4000 ==> left == 2000)
            && (!(e == -2000 && c >= 4000) ==> 3000 <= left <= 6000)
  {
    var b := Round(total, c);
    k := b - 4000;
    RoundBounds(total, c);
    Shift(c, b, k);
    LastByExcess(c, e, k);
    assert BaseMs(total, c) == b;
    LeftOver(total, c, b);
  }

  lemma LeftOver(total: int, c: nat, b: int)
    requires c >= 2 && b == BaseMs(total, c)
    ensures LeftForLast(total, c) == total - 4000 * (c - 1) - (b - 4000) * (c - 1)
  {
    Shift(c, b, b - 4000);
  }

  lemma RoundBounds(a: int, b: int)
    requires 0 < b
    ensures 2 * b * Round(a, b) <= 2 * a + b < 2 * b * Round(a, b) + 2 * b
  {
    var q, r := (2 * a + b) / (2 * b), (2 * a + b) % (2 * b);
    assert 2 * a + b == (2 * b) * q + r;
  }

  lemma Shift(c: nat, b: int, k: int)
    requires b == 4000 + k
    ensures 2 * c * b == 2 * c * k + 8000 * c
    ensures b * (c - 1) == 4000 * (c - 1) + k * (c - 1)
  {
  }

  function Seconds(durationSec: Option<int>): int {
    if durationSec.Some? then durationSec.value else 30
  }

  /**
   * The plan is never shorter than asked for, and it is exact except for durations under three
   * seconds and, from 15998 seconds on, durations two seconds over a multiple of four: there
   * rounding leaves the last scene two seconds, and its minimum makes the plan one second too long.
   */
  lemma PlanIsExactIff(durationSec: Option<int>, picked: seq<nat>)
    ensures var d, length := Seconds(durationSec), Length(Plan(durationSec, picked));
            && length >= TotalMs(durationSec)
            && (length == TotalMs(durationSec) <==> d >= 3 && !(d % 4 == 2 && d >= 15998))
            && (d >= 3 ==> length <= TotalMs(durationSec) + 1000)
  {
    PlanLength(durationSec, picked);
    LeftIs(durationSec);
  }

  lemma LeftIs(durationSec: Option<int>)
    ensures var d, left := Seconds(durationSec), LeftForLast(TotalMs(durationSec), SceneCount(durationSec));
            && left <= SceneMaxMs
            && (left < SceneMinMs <==> d < 3 || (d % 4 == 2 && d >= 15998))
            && (left < SceneMinMs && d >= 3 ==> left == 2000)
  {
    var d, count := Seconds(durationSec), SceneCount(durationSec);
    assert TotalMs(durationSec) == d * 1000;
    if count >= 2 {
      CountBounds(d * 1000, count);
      LastScene(d, count);
    } else {
      OneScene(d * 1000);
    }
  }

  lemma OneScene(total: int)
    requires Max(1, Round(total, DefaultSceneMs)) == 1
    ensures LeftForLast(total, 1) == total && total < 6000
  {
    CountBounds(total, 1);
    var base := BaseMs(total, 1);
    assert (1 - 1) * base == 0;
  }

  /** For every duration, all scenes last three to six seconds and are numbered from one. */
  lemma ScenesInRange(durationSec: Option<int>, picked: seq<nat>, i: nat)
    requires i < |Plan(durationSec, picked)|
    ensures var scene := Plan(durationSec, picked)[i];
            && SceneMinMs <= scene.durationMs <= SceneMaxMs
            && scene.number == i + 1
            && (scene.fromAsset.Some? <==> |picked| > 0) && (scene.useReal ==> scene.fromAsset.Some?)
  {
    LeftIs(durationSec);
    var total, count := TotalMs(durationSec), SceneCount(durationSec);
    var scene := SceneAt(total, count, picked, i);
    assert Plan(durationSec, picked)[i] == scene;
    assert scene.durationMs
        == if i == count - 1 then Max(SceneMinMs, LeftForLast(total, count)) else BaseMs(total, count);
  }

  /** In particular every plan of at most a thousand scenes, from three seconds on, is exact. */
  lemma ThousandScenesAreExact(durationSec: Option<int>, picked: seq<nat>)
    requires Seconds(durationSec) >= 3 && SceneCount(durationSec) <= 1000
    ensures Length(Plan(durationSec, picked)) == TotalMs(durationSec)
  {
    PlanIsExactIff(durationSec, picked);
    CountBounds(TotalMs(durationSec), SceneCount(durationSec));
  }

  /** With assets, real footage and generated scenes alternate, real footage first; without, nothing is real. */
  lemma RealAndMadeAlternate(durationSec: Option<int>, picked: seq<nat>, i: nat)
    requires i < |Plan(durationSec, picked)|
    ensures var plan := Plan(durationSec, picked);
            && (|picked| > 0 ==> plan[0].useReal)
            && (|picked| > 0 && i > 0 ==> (plan[i].useReal <==> !plan[i - 1].useReal))
            && (|picked| == 0 ==> !plan[i].useReal && plan[i].fromAsset == None)
  {
    if i > 0 { Parity(i); }
    var total, count := TotalMs(durationSec), SceneCount(durationSec);
    assert Plan(durationSec, picked)[i] == SceneAt(total, count, picked, i);
    assert i > 0 ==> Plan(durationSec, picked)[i - 1] == SceneAt(total, count, picked, i - 1);
    assert Plan(durationSec, picked)[0] == SceneAt(total, count, picked, 0);
  }

  lemma Parity(i: nat)
    requires i > 0
    ensures i % 2 == 0 <==> (i - 1) % 2 != 0
  {
  }
}
