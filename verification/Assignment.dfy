/**
 * Dividing publish jobs into those that fit their channels' headroom now and those put off to a
 * later slot.
 */
module Assignment {
  import opened Wrappers
  import P = Publishing

  datatype Job = Job(content: nat, channel: nat)

  datatype Deferred<R> = Deferred(job: Job, reason: R)

  /** How many slots a channel has, and why not more. */
  datatype Room<R> = Room(available: int, reason: R)

  function Slots<R>(rooms: map<nat, Room<R>>, channel: nat): nat
    requires channel in rooms
  {
    if rooms[channel].available > 0 then rooms[channel].available else 0
  }

  /** How many of the first n jobs are for the channel. */
  function CountOf(jobs: seq<Job>, n: nat, channel: nat): nat
    requires n <= |jobs|
  {
    if n == 0 then 0 else CountOf(jobs, n - 1, channel) + if jobs[n - 1].channel == channel then 1 else 0
  }

  ghost predicate Known<R>(jobs: seq<Job>, rooms: map<nat, Room<R>>) {
    forall k :: 0 <= k < |jobs| ==> jobs[k].channel in rooms
  }

  /** A job fits when fewer jobs of its channel stand before it than the channel has slots. */
  predicate Fits<R>(jobs: seq<Job>, rooms: map<nat, Room<R>>, k: nat)
    requires k < |jobs| && jobs[k].channel in rooms
  {
    CountOf(jobs, k, jobs[k].channel) < Slots(rooms, jobs[k].channel)
  }

  /** The positions of the first n jobs that fit, or that do not, in order. */
  ghost function Positions<R>(jobs: seq<Job>, rooms: map<nat, Room<R>>, fit: bool, n: nat): (p: seq<nat>)
    requires n <= |jobs| && Known(jobs, rooms)
    ensures forall i :: 0 <= i < |p| ==> p[i] < n
  {
    if n == 0 then []
    else Positions(jobs, rooms, fit, n - 1) + if Fits(jobs, rooms, n - 1) == fit then [n - 1] else []
  }

  ghost function JobsAt(jobs: seq<Job>, positions: seq<nat>): (picked: seq<Job>)
    requires forall i :: 0 <= i < |positions| ==> positions[i] < |jobs|
    ensures |picked| == |positions|
  {
    seq(|positions|, i requires 0 <= i < |positions| => jobs[positions[i]])
  }

  ghost function WithReasons<R>(jobs: seq<Job>, rooms: map<nat, Room<R>>, positions: seq<nat>): seq<Deferred<R>>
    requires Known(jobs, rooms) && forall i :: 0 <= i < |positions| ==> positions[i] < |jobs|
  {
    seq(|positions|, i requires 0 <= i < |positions| =>
      Deferred(jobs[positions[i]], rooms[jobs[positions[i]].channel].reason))
  }

  /** What is handed out: the jobs that fit, and the others with their channels' reasons. */
  ghost predicate Divided<R>(jobs: seq<Job>, rooms: map<nat, Room<R>>, n: nat, plan: seq<Job>,
                             deferred: seq<Deferred<R>>)
    requires n <= |jobs| && Known(jobs, rooms)
  {
    && plan == JobsAt(jobs, Positions(jobs, rooms, true, n))
    && deferred == WithReasons(jobs, rooms, Positions(jobs, rooms, false, n))
  }

  lemma DividedNext<R>(jobs: seq<Job>, rooms: map<nat, Room<R>>, n: nat, plan: seq<Job>, deferred: seq<Deferred<R>>)
    requires n < |jobs| && Known(jobs, rooms) && Divided(jobs, rooms, n, plan, deferred)
    ensures Fits(jobs, rooms, n) ==> Divided(jobs, rooms, n + 1, plan + [jobs[n]], deferred)
    ensures !Fits(jobs, rooms, n) ==>
              Divided(jobs, rooms, n + 1, plan, deferred + [Deferred(jobs[n], rooms[jobs[n].channel].reason)])
  {
    var now, later := Positions(jobs, rooms, true, n), Positions(jobs, rooms, false, n);
    if Fits(jobs, rooms, n) {
      assert JobsAt(jobs, now + [n]) == JobsAt(jobs, now) + [jobs[n]];
      assert later + [] == later;
    } else {
      assert WithReasons(jobs, rooms, later + [n])
          == WithReasons(jobs, rooms, later) + [Deferred(jobs[n], rooms[jobs[n].channel].reason)];
      assert now + [] == now;
    }
  }

  /** The headroom of every channel among the jobs is asked first; a channel that does not exist fails the call. */
  method Assign<R>(jobs: seq<Job>, headroom: nat -> Option<Room<R>>)
    returns (result: Option<(seq<Job>, seq<Deferred<R>>)>, ghost rooms: map<nat, Room<R>>)
    ensures result.None? <==> exists k :: 0 <= k < |jobs| && headroom(jobs[k].channel).None?
    ensures result.Some? ==> Known(jobs, rooms)
    ensures result.Some? ==> forall channel :: channel in rooms ==> headroom(channel) == Some(rooms[channel])
    ensures result.Some? ==> Divided(jobs, rooms, |jobs|, result.value.0, result.value.1)
    ensures result.Some? ==> forall i :: 0 <= i < |result.value.1| ==>
              var put := result.value.1[i];
              headroom(put.job.channel).Some? && headroom(put.job.channel).value.reason == put.reason
  {
    var asked: map<nat, Room<R>> := map[];
    rooms := asked;
    var k := 0;
    while k < |jobs|
      invariant 0 <= k <= |jobs|
      invariant forall i :: 0 <= i < k ==> jobs[i].channel in asked
      invariant forall channel :: channel in asked ==> headroom(channel) == Some(asked[channel])
    {
      var h := headroom(jobs[k].channel);
      if h.None? {
        return None, asked;
      }
      asked := asked[jobs[k].channel := h.value];
      k := k + 1;
    }
    rooms := asked;
    var plan, deferred := Divide(jobs, asked);
    DeferredSayWhy(jobs, asked, plan, deferred);
    result := Some((plan, deferred));
  }

  /** A job that is put off carries its own channel's reason. */
  lemma DeferredSayWhy<R>(jobs: seq<Job>, rooms: map<nat, Room<R>>, plan: seq<Job>, deferred: seq<Deferred<R>>)
    requires Known(jobs, rooms) && Divided(jobs, rooms, |jobs|, plan, deferred)
    ensures forall i :: 0 <= i < |deferred| ==>
              deferred[i].job.channel in rooms && deferred[i].reason == rooms[deferred[i].job.channel].reason
  {
  }

  /** What the countdown of a channel's room has reached. */
  ghost predicate CountedDown<R>(jobs: seq<Job>, rooms: map<nat, Room<R>>, n: nat, room: map<nat, int>)
    requires n <= |jobs|
  {
    && room.Keys == rooms.Keys
    && forall channel :: channel in rooms ==>
         var used, slots := CountOf(jobs, n, channel), Slots(rooms, channel);
         (if room[channel] > 0 then room[channel] else 0) == if used < slots then slots - used else 0
  }

  /** The loop over the jobs, counting each channel's room down. */
  method Divide<R>(jobs: seq<Job>, rooms: map<nat, Room<R>>) returns (plan: seq<Job>, deferred: seq<Deferred<R>>)
    requires Known(jobs, rooms)
    ensures Divided(jobs, rooms, |jobs|, plan, deferred)
  {
    plan, deferred := [], [];
    var room: map<nat, int> := map channel: nat | channel in rooms :: rooms[channel].available;
    var k := 0;
    while k < |jobs|
      invariant 0 <= k <= |jobs|
      invariant Divided(jobs, rooms, k, plan, deferred)
      invariant CountedDown(jobs, rooms, k, room)
    {
      var job := jobs[k];
      DividedNext(jobs, rooms, k, plan, deferred);
      var remaining := room[job.channel];
      assert remaining > 0 <==> Fits(jobs, rooms, k);
      if remaining <= 0 {
        deferred := deferred + [Deferred(job, rooms[job.channel].reason)];
      } else {
        plan := plan + [job];
        room := room[job.channel := remaining - 1];
      }
      k := k + 1;
    }
  }

  // ---------- What the division guarantees ----------

  lemma {:induction false} PlannedPerChannel<R>(jobs: seq<Job>, rooms: map<nat, Room<R>>, channel: nat, n: nat)
    requires Known(jobs, rooms) && channel in rooms && n <= |jobs|
    ensures var plan, all := JobsAt(jobs, Positions(jobs, rooms, true, n)), CountOf(jobs, n, channel);
            CountOf(plan, |plan|, channel) == if all <= Slots(rooms, channel) then all else Slots(rooms, channel)
    decreases n
  {
    if n > 0 {
      PlannedPerChannel(jobs, rooms, channel, n - 1);
      var now := Positions(jobs, rooms, true, n - 1);
      if Fits(jobs, rooms, n - 1) {
        assert JobsAt(jobs, now + [n - 1]) == JobsAt(jobs, now) + [jobs[n - 1]];
        CountPush(JobsAt(jobs, now), jobs[n - 1], channel);
      } else {
        assert now + [] == now;
      }
    }
  }

  lemma CountPush(jobs: seq<Job>, job: Job, channel: nat)
    ensures CountOf(jobs + [job], |jobs| + 1, channel)
            == CountOf(jobs, |jobs|, channel) + if job.channel == channel then 1 else 0
  {
    CountPrefix(jobs, jobs + [job], |jobs|, channel);
  }

  lemma {:induction false} CountPrefix(jobs: seq<Job>, longer: seq<Job>, n: nat, channel: nat)
    requires n <= |jobs| <= |longer| && forall i :: 0 <= i < n ==> jobs[i] == longer[i]
    ensures CountOf(jobs, n, channel) == CountOf(longer, n, channel)
    decreases n
  {
    if n > 0 {
      CountPrefix(jobs, longer, n - 1, channel);
    }
  }

  /** Each channel gets exactly as many jobs as it has, or as it has room for. */
  lemma PlanUsesRoom<R>(jobs: seq<Job>, rooms: map<nat, Room<R>>, plan: seq<Job>, deferred: seq<Deferred<R>>,
                        channel: nat)
    requires Known(jobs, rooms) && channel in rooms && Divided(jobs, rooms, |jobs|, plan, deferred)
    ensures var all := CountOf(jobs, |jobs|, channel);
            CountOf(plan, |plan|, channel) == if all <= Slots(rooms, channel) then all else Slots(rooms, channel)
  {
    PlannedPerChannel(jobs, rooms, channel, |jobs|);
  }

  /** Positions rise, and every position is in exactly one of the two lists: nothing is lost, doubled or reordered. */
  lemma {:induction false} PositionsPartition<R>(jobs: seq<Job>, rooms: map<nat, Room<R>>, n: nat)
    requires Known(jobs, rooms) && n <= |jobs|
    ensures var now, later := Positions(jobs, rooms, true, n), Positions(jobs, rooms, false, n);
            && (forall i, j :: 0 <= i < j < |now| ==> now[i] < now[j])
            && (forall i, j :: 0 <= i < j < |later| ==> later[i] < later[j])
            && |now| + |later| == n
    decreases n
  {
    if n > 0 {
      PositionsPartition(jobs, rooms, n - 1);
    }
  }

  lemma {:induction false} InPositions<R>(jobs: seq<Job>, rooms: map<nat, Room<R>>, fit: bool, n: nat, k: nat)
    requires Known(jobs, rooms) && k < n <= |jobs|
    ensures k in Positions(jobs, rooms, fit, n) <==> Fits(jobs, rooms, k) == fit
    decreases n
  {
    if k < n - 1 {
      InPositions(jobs, rooms, fit, n - 1, k);
    }
  }

  /** A job is put off only when its channel's room has gone to jobs before it. */
  lemma DeferredAfterRoomIsUsed<R>(jobs: seq<Job>, rooms: map<nat, Room<R>>, k: nat)
    requires Known(jobs, rooms) && k < |jobs| && k in Positions(jobs, rooms, false, |jobs|)
    ensures var before := JobsAt(jobs, Positions(jobs, rooms, true, k));
            CountOf(before, |before|, jobs[k].channel) == Slots(rooms, jobs[k].channel)
  {
    InPositions(jobs, rooms, false, |jobs|, k);
    PlannedPerChannel(jobs, rooms, jobs[k].channel, k);
  }

  /** With the headroom reported, what is planned for a channel fits its cap beside what it has posted. */
  lemma PlannedFitsCap(jobs: seq<Job>, rooms: map<nat, Room<P.Reason>>, plan: seq<Job>,
                       deferred: seq<Deferred<P.Reason>>,
                       channel: nat, c: P.Channel)
    requires Known(jobs, rooms) && channel in rooms && Divided(jobs, rooms, |jobs|, plan, deferred)
    requires rooms[channel] == Room(P.Headroom(c).available, P.Headroom(c).reason)
    ensures CountOf(plan, |plan|, channel) > 0 ==>
              && c.health != P.QUARANTINE && c.active && !P.TooSoon(c)
              && P.CountToday(c) + CountOf(plan, |plan|, channel) <= c.dailyCap
  {
    PlanUsesRoom(jobs, rooms, plan, deferred, channel);
    P.RoomMeans(c);
  }
}
