/**
 * The services around a channel's row, changing it in place as Publishing describes: the publish
 * processor, the health service and the operator's publicize.
 */
module ChannelHealth {
  import opened Wrappers
  import P = Publishing

  datatype Refusal = CHANNEL_QUARANTINED | CHANNEL_HEADROOM_EXCEEDED

  datatype Started = InactiveChannel | AlreadyPosted | Uploading

  class ChannelRecord {
    var active: bool
    var health: P.Health
    var dailyCap: int
    var observedSafeMax: int
    var minIntervalMin: int
    var quarantineOnRemoval: bool
    var pubs: map<nat, P.Publication>
    var now: nat
    var dayStart: nat

    function State(): P.Channel
      reads this
    {
      P.Channel(active, health, dailyCap, observedSafeMax, minIntervalMin, quarantineOnRemoval, pubs, now, dayStart)
    }

    /** Returns the refusal, if any; quarantine is told apart from every other lack of room. */
    method AssertCanPublish() returns (refusal: Option<Refusal>)
      ensures refusal.None? <==> P.Headroom(State()).available > 0
      ensures refusal == Some(CHANNEL_QUARANTINED) <==> health == P.QUARANTINE
    {
      var room := P.Headroom(State());
      if room.reason == P.QUARANTINED {
        return Some(CHANNEL_QUARANTINED);
      }
      if room.available <= 0 {
        return Some(CHANNEL_HEADROOM_EXCEEDED);
      }
      refusal := None;
    }

    /** The first half of a publish: everything before the guard. */
    method StartPublish(content: nat) returns (started: Started)
      modifies this
      ensures State() == P.Begin(old(State()), content)
      ensures started == InactiveChannel <==> !active
      ensures started == AlreadyPosted <==> active && content in old(pubs) && P.Posted(old(pubs)[content])
      ensures started == Uploading ==> content in pubs && pubs[content].status == P.UPLOADING
    {
      if !active {
        return InactiveChannel;
      }
      if content in pubs && P.Posted(pubs[content]) {
        return AlreadyPosted;
      }
      var pub := if content in pubs then pubs[content] else P.Publication(P.UPLOADING, now);
      pubs := pubs[content := pub.(status := P.UPLOADING)];
      started := Uploading;
    }

    /** The second half: the guard, the upload, and FAILED for whatever goes wrong. */
    method FinishPublish(content: nat, attempt: P.Attempt) returns (uploaded: bool)
      requires content in pubs && pubs[content].status == P.UPLOADING
      modifies this
      ensures State() == P.Finish(old(State()), content, attempt)
      ensures uploaded <==> P.Uploads(old(State()), content, attempt)
      ensures pubs[content].status == P.UPLOADED <==> uploaded && attempt == P.Recorded
    {
      var refusal := AssertCanPublish();
      uploaded := refusal.None? && attempt != P.NotUploaded;
      var pub := pubs[content];
      if uploaded && attempt == P.Recorded {
        pubs := pubs[content := pub.(status := P.UPLOADED)];
      } else {
        pubs := pubs[content := pub.(status := P.FAILED)];
      }
    }

    /** Refused unless the post is up. */
    method Publicize(content: nat) returns (ok: bool)
      modifies this
      ensures State() == P.Publicize(old(State()), content)
      ensures ok <==> content in old(pubs) && P.Posted(old(pubs)[content])
    {
      ok := content in pubs && P.Posted(pubs[content]);
      if ok {
        pubs := pubs[content := pubs[content].(status := P.PUBLISHED)];
      }
    }

    method Observe(m: P.Metrics) returns (state: P.Health)
      modifies this
      ensures State() == P.Observe(old(State()), m) && state == health
      ensures m.policyRemovals > 0 && quarantineOnRemoval ==>
                health == P.QUARANTINE && P.Headroom(State()).available == 0
      ensures !(m.policyRemovals > 0 && quarantineOnRemoval) ==>
                if m.postedCount > m.dailyCap then health == P.THROTTLED && dailyCap == P.Max(m.dailyCap - 1, 1)
                else dailyCap == old(dailyCap) && health == if old(health) == P.THROTTLED then P.ACTIVE else old(health)
    {
      state := P.ACTIVE;
      if m.policyRemovals > 0 && quarantineOnRemoval {
        state := P.QUARANTINE;
        health := P.QUARANTINE;
      } else if m.postedCount > m.dailyCap {
        state := P.THROTTLED;
        health := P.THROTTLED;
        dailyCap := P.Max(m.dailyCap - 1, 1);
      } else if health == P.THROTTLED {
        state := P.ACTIVE;
        health := P.ACTIVE;
      } else {
        state := health;
      }
    }

    method ObserveToday() returns (state: P.Health)
      modifies this
      ensures State() == P.ObserveToday(old(State())) && state == health
      ensures P.MustQuarantine(old(State())) ==> health == P.QUARANTINE && P.Headroom(State()).available == 0
    {
      P.ObservationOutcome(State());
      state := Observe(P.Today(State()));
    }

    method Release(cap: Option<int>)
      modifies this
      ensures State() == P.Release(old(State()), cap)
    {
      health := P.ACTIVE;
      dailyCap := P.Min(if cap.Some? then cap.value else dailyCap, observedSafeMax);
    }

    method Quarantine()
      modifies this
      ensures State() == P.Quarantine(old(State()))
    {
      health := P.QUARANTINE;
    }
  }
}
