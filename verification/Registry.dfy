/**
 * The registry of generation backends: priority order, and the chain of usable backends a caller
 * falls back along.
 */
module Registry {
  import opened Wrappers
  import opened StableSort

  datatype Capability = ImageGeneration | VideoGeneration | VoiceGeneration | MusicGeneration | Embedding

  datatype Backend = Backend(name: nat, capability: Capability, unitCost: real)

  datatype Entry = Entry(priority: real, backend: Backend)

  datatype HealthCheck = HealthCheck(at: int, ok: bool)

  function Priority(e: Entry): real { e.priority }

  // ---------- Order ----------

  /** Registering one more backend. */
  function Inserted(list: seq<Entry>, e: Entry): seq<Entry> {
    SortBy(list + [e], Priority)
  }

  /** The list after registering these entries one after another. */
  function Registered(entries: seq<Entry>): seq<Entry> {
    if |entries| == 0 then [] else Inserted(Registered(entries[..|entries| - 1]), entries[|entries| - 1])
  }

  lemma {:induction false} WithKeyJoin<T>(a: seq<T>, b: seq<T>, key: T -> real, v: real)
    ensures WithKey(a + b, key, v) == WithKey(a, key, v) + WithKey(b, key, v)
    decreases |a|
  {
    if |a| == 0 {
      assert a + b == b && [] + WithKey(b, key, v) == WithKey(b, key, v);
    } else {
      var first := if key(a[0]) == v then [a[0]] else [];
      assert (a + b)[0] == a[0] && (a + b)[1..] == a[1..] + b;
      WithKeyJoin(a[1..], b, key, v);
      var x, y := WithKey(a[1..], key, v), WithKey(b, key, v);
      assert first + (x + y) == first + x + y;
    }
  }

  /** Whatever the order of registration: by priority, and in order of registration where priorities are equal. */
  lemma {:induction false} PriorityThenRegistration(entries: seq<Entry>, p: real)
    ensures Ascending(Registered(entries), Priority)
    ensures forall i, j :: 0 <= i < j < |Registered(entries)| ==>
              Registered(entries)[i].priority <= Registered(entries)[j].priority
    ensures WithKey(Registered(entries), Priority, p) == WithKey(entries, Priority, p)
    decreases |entries|
  {
    if |entries| > 0 {
      var before, e := entries[..|entries| - 1], entries[|entries| - 1];
      PriorityThenRegistration(before, p);
      SortAscending(Registered(before) + [e], Priority);
      SortStable(Registered(before) + [e], Priority, p);
      WithKeyJoin(Registered(before), [e], Priority, p);
      assert entries == before + [e];
      WithKeyJoin(before, [e], Priority, p);
      RisingPriorities(Registered(entries));
    }
  }

  lemma RisingPriorities(list: seq<Entry>)
    requires Ascending(list, Priority)
    ensures forall i, j :: 0 <= i < j < |list| ==> list[i].priority <= list[j].priority
  {
    forall i, j | 0 <= i < j < |list| ensures list[i].priority <= list[j].priority {
      assert Priority(list[i]) <= Priority(list[j]);
    }
  }

  // ---------- The chain ----------

  /** The cached answer while it is fresh, otherwise what the backend says now. */
  function IsUp(health: map<nat, HealthCheck>, now: int, ttl: int, probe: nat -> bool, name: nat): bool {
    if name in health && now - health[name].at < ttl then health[name].ok else probe(name)
  }

  predicate Usable(health: map<nat, HealthCheck>, now: int, ttl: int, probe: nat -> bool, maxCost: Option<real>,
                   b: Backend) {
    !(maxCost.Some? && b.unitCost > maxCost.value) && IsUp(health, now, ttl, probe, b.name)
  }

  function UsableNow(health: map<nat, HealthCheck>, now: int, ttl: int, probe: nat -> bool,
                     maxCost: Option<real>): Backend -> bool {
    (b: Backend) => Usable(health, now, ttl, probe, maxCost, b)
  }

  /** The usable backends, in registry order. */
  function Chain(list: seq<Entry>, usable: Backend -> bool): seq<Backend> {
    if |list| == 0 then []
    else
      var last := list[|list| - 1].backend;
      Chain(list[..|list| - 1], usable) + if usable(last) then [last] else []
  }

  /**
   * A backend is usable when it costs no more than asked and its fresh answer says so, or, without
   * one, it says so now; an answer is fresh until it is `ttl` old.
   */
  lemma UsableMeans(health: map<nat, HealthCheck>, now: int, ttl: int, probe: nat -> bool, maxCost: Option<real>,
                    b: Backend)
    ensures UsableNow(health, now, ttl, probe, maxCost)(b) <==>
              && (maxCost == None || b.unitCost <= maxCost.value)
              && (if b.name in health && health[b.name].at + ttl > now then health[b.name].ok else probe(b.name))
  {
  }

  /** Rising positions in the list: those of all usable entries, and of no others, in the order of the chain. */
  ghost predicate Places(list: seq<Entry>, usable: Backend -> bool, chain: seq<Backend>, positions: seq<nat>) {
    && |positions| == |chain|
    && (forall i, j :: 0 <= i < j < |positions| ==> positions[i] < positions[j])
    && (forall i :: 0 <= i < |positions| ==> positions[i] < |list| && list[positions[i]].backend == chain[i])
    && (forall k :: 0 <= k < |list| ==> (k in positions <==> usable(list[k].backend)))
  }

  /** Nothing unusable is in the chain, nothing usable is missing, and the order is the registry's. */
  lemma {:induction false} ChainPositions(list: seq<Entry>, usable: Backend -> bool) returns (positions: seq<nat>)
    ensures Places(list, usable, Chain(list, usable), positions)
    decreases |list|
  {
    positions := [];
    if |list| > 0 {
      var before := list[..|list| - 1];
      positions := ChainPositions(before, usable);
      positions := AddPlace(before, list, usable, Chain(before, usable), positions);
    }
  }

  lemma AddPlace(before: seq<Entry>, list: seq<Entry>, usable: Backend -> bool, chain: seq<Backend>,
                 positions: seq<nat>)
    returns (more: seq<nat>)
    requires |list| == |before| + 1 && list[..|before|] == before && Places(before, usable, chain, positions)
    ensures var last := list[|before|].backend;
            Places(list, usable, chain + if usable(last) then [last] else [], more)
  {
    more := positions + if usable(list[|before|].backend) then [|before|] else [];
    forall k | 0 <= k < |before| ensures list[k] == before[k] && (k in more <==> k in positions) {
    }
    assert |before| !in positions;
  }

  lemma RisingOrder(positions: seq<nat>, j: nat, i: nat)
    requires i < |positions| && j < |positions| && positions[j] < positions[i]
    requires forall a, b :: 0 <= a < b < |positions| ==> positions[a] < positions[b]
    ensures j < i
  {
  }

  class ModelRegistry {
    var backends: map<Capability, seq<Entry>>
    var health: map<nat, HealthCheck>
    /** What has been registered for each capability, in order. */
    ghost var registrations: map<Capability, seq<Entry>>

    ghost function Registrations(capability: Capability): seq<Entry>
      reads this`registrations
    {
      if capability in registrations then registrations[capability] else []
    }

    /** Every list is the outcome of its registrations. */
    ghost predicate Valid()
      reads this`backends, this`registrations
    {
      forall c :: List(c) == Registered(Registrations(c))
    }

    constructor ()
      ensures Valid() && forall c :: Registrations(c) == []
    {
      backends, health, registrations := map[], map[], map[];
    }

    function List(capability: Capability): seq<Entry>
      reads this`backends
    {
      if capability in backends then backends[capability] else []
    }

    method Register(backend: Backend, priority: real)
      requires Valid()
      modifies this
      ensures Valid()
      ensures Registrations(backend.capability) == old(Registrations(backend.capability)) + [Entry(priority, backend)]
      ensures List(backend.capability) == Inserted(old(List(backend.capability)), Entry(priority, backend))
      ensures forall c :: c != backend.capability ==> List(c) == old(List(c))
      ensures health == old(health)
    {
      var list := List(backend.capability);
      ghost var before := Registrations(backend.capability);
      assert (before + [Entry(priority, backend)])[..|before|] == before;
      backends := backends[backend.capability := SortBy(list + [Entry(priority, backend)], Priority)];
      registrations := registrations[backend.capability := before + [Entry(priority, backend)]];
      forall c ensures List(c) == Registered(Registrations(c)) {
        assert old(List(c) == Registered(Registrations(c)));
      }
    }

    method IsHealthy(backend: Backend, now: int, ttl: int, probe: nat -> bool) returns (ok: bool)
      requires 0 < ttl
      modifies this`health
      ensures ok == IsUp(old(health), now, ttl, probe, backend.name)
      ensures forall name :: IsUp(health, now, ttl, probe, name) == IsUp(old(health), now, ttl, probe, name)
    {
      if backend.name in health && now - health[backend.name].at < ttl {
        return health[backend.name].ok;
      }
      ok := probe(backend.name);
      health := health[backend.name := HealthCheck(now, ok)];
    }

    /** Fails only when no backend of the capability is usable; asking twice makes no difference. */
    method Resolve(capability: Capability, maxCost: Option<real>, now: int, ttl: int, probe: nat -> bool)
      returns (chain: Option<seq<Backend>>)
      requires 0 < ttl
      modifies this`health
      ensures var whole := Chain(old(List(capability)), UsableNow(old(health), now, ttl, probe, maxCost));
              chain == if |whole| == 0 then None else Some(whole)
      ensures forall name :: IsUp(health, now, ttl, probe, name) == IsUp(old(health), now, ttl, probe, name)
    {
      ghost var start := health;
      ghost var usable := UsableNow(start, now, ttl, probe, maxCost);
      var list := List(capability);
      var found: seq<Backend> := [];
      var k := 0;
      while k < |list|
        invariant 0 <= k <= |list|
        invariant found == Chain(list[..k], usable)
        invariant forall name :: IsUp(health, now, ttl, probe, name) == IsUp(start, now, ttl, probe, name)
      {
        var backend := list[k].backend;
        assert list[..k + 1][..k] == list[..k];
        if !(maxCost.Some? && backend.unitCost > maxCost.value) {
          var ok := IsHealthy(backend, now, ttl, probe);
          if ok {
            found := found + [backend];
          }
        }
        k := k + 1;
      }
      assert list[..k] == list;
      chain := if |found| == 0 then None else Some(found);
    }
  }
}
