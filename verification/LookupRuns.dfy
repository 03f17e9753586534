/** Runs of the lookup class updater over all ports, and the neighbor deltas that drive it. */
module LookupRuns {
  import opened LookupClasses

  type Port = nat

  /** `classes` is the configuration; `held` records every add not yet undone by a remove. */
  datatype World = World(
    ports: map<Port, PortState>,
    classes: map<Port, set<Class>>,
    held: map<Port, multiset<Key>>)

  datatype Result = Next(world: World) | CheckFailed

  predicate HasClasses(w: World, p: Port)
  {
    p in w.classes && w.classes[p] != {}
  }

  function HeldAt(w: World, p: Port): multiset<Key>
  {
    if p in w.held then w.held[p] else multiset{}
  }

  function Put(w: World, p: Port, r: Outcome, held: multiset<Key>): Result
  {
    if r.Failed? then CheckFailed else Next(w.(ports := w.ports[p := r.port], held := w.held[p := held]))
  }

  function PortOf(w: World, p: Port): PortState
  {
    if p in w.ports then w.ports[p] else PortState(map[], map[])
  }

  ghost function AddTo(w: World, p: Port, key: Key): Result
  {
    if !HasClasses(w, p) then Next(w)
    else Put(w, p, Add(PortOf(w, p), key), HeldAt(w, p) + multiset{key})
  }

  function RemoveFrom(w: World, p: Port, key: Key): Result
  {
    if !HasClasses(w, p) then Next(w)
    else Put(w, p, Remove(PortOf(w, p), key), HeldAt(w, p) - multiset{key})
  }

  ghost function AddAll(p: PortState, keys: seq<Key>): Outcome
  {
    if keys == [] then Running(p)
    else
      var before := AddAll(p, keys[..|keys| - 1]);
      if before.Failed? then Failed else Add(before.port, keys[|keys| - 1])
  }

  function RemoveAll(p: PortState, keys: seq<Key>): Outcome
  {
    if keys == [] then Running(p)
    else
      var before := RemoveAll(p, keys[..|keys| - 1]);
      if before.Failed? then Failed else Remove(before.port, keys[|keys| - 1])
  }

  /** `processPortChanged`: release what the old list gave out, start over, hand out again. */
  ghost function ChangeClasses(w: World, p: Port, classes: set<Class>, cleared: seq<Key>, resolved: seq<Key>): Result
    requires p in w.classes
  {
    if classes == w.classes[p] then Next(w)
    else if RemoveAll(PortOf(w, p), cleared).Failed? then CheckFailed
    else
      var w1 := w.(classes := w.classes[p := classes]);
      if classes == {} then Put(w1, p, Running(InitPort(classes)), multiset{})
      else Put(w1, p, AddAll(InitPort(classes), resolved), multiset(resolved))
  }

  datatype Event =
    | Added(port: Port, key: Key)
    | Removed(port: Port, key: Key)
    | ClassesChanged(port: Port, classes: set<Class>, cleared: seq<Key>, resolved: seq<Key>)
    | PortAdded(port: Port, classes: set<Class>)
    | PortRemoved(port: Port)

  /** Every remove matches an earlier add. */
  predicate Enabled(w: World, e: Event)
  {
    match e
    case Added(_, _) => true
    case Removed(p, key) => HasClasses(w, p) ==> key in HeldAt(w, p)
    case ClassesChanged(p, _, cleared, _) => p in w.classes && multiset(cleared) <= HeldAt(w, p)
    case PortAdded(p, _) => p !in w.classes
    case PortRemoved(p) => p in w.classes
  }

  ghost function Step(w: World, e: Event): Result
    requires Enabled(w, e)
  {
    match e
    case Added(p, key) => AddTo(w, p, key)
    case Removed(p, key) => RemoveFrom(w, p, key)
    case ClassesChanged(p, classes, cleared, resolved) => ChangeClasses(w, p, classes, cleared, resolved)
    case PortAdded(p, classes) =>
      var w1 := w.(classes := w.classes[p := classes]);
      if classes == {} || p in w.ports then Next(w1) else Put(w1, p, Running(InitPort(classes)), multiset{})
    case PortRemoved(p) => Next(World(w.ports - {p}, w.classes - {p}, w.held - {p}))
  }

  /** The world a warm boot leaves, from what was found on each port. */
  ghost predicate Booted(w: World, found: map<Port, seq<Found>>)
  {
    && found.Keys == w.classes.Keys == w.ports.Keys == w.held.Keys
    && forall p | p in found ::
         && Rebuilt(w.classes[p], found[p]) == Running(w.ports[p]) && w.held[p] == KeysFound(found[p])
  }

  ghost predicate IsRun(worlds: seq<World>, events: seq<Event>)
  {
    && |worlds| == |events| + 1 && (exists found :: Booted(worlds[0], found))
    && forall i | 0 <= i < |events| ::
         Enabled(worlds[i], events[i]) && Step(worlds[i], events[i]) == Next(worlds[i + 1])
  }

  // ---- the invariant ----

  /** A port without classes may have been left with what a warm boot found on it. */
  ghost predicate PortInv(w: World, p: Port)
  {
    && (p in w.ports <==> p in w.held)
    && (p in w.ports ==> p in w.classes && Inv(w.ports[p], w.held[p]) && w.classes[p] <= w.ports[p].counts.Keys)
    && (HasClasses(w, p) ==> p in w.ports)
  }

  ghost predicate WorldInv(w: World)
  {
    forall p: Port :: PortInv(w, p)
  }

  lemma {:induction false} AddAllKeeps(p: PortState, held: multiset<Key>, keys: seq<Key>)
    requires Inv(p, held) && p.counts != map[]
    ensures AddAll(p, keys).Running? && Inv(AddAll(p, keys).port, held + multiset(keys))
    ensures AddAll(p, keys).port.counts.Keys == p.counts.Keys
    ensures Balanced(p) ==> Balanced(AddAll(p, keys).port)
  {
    if keys != [] {
      var before, last := keys[..|keys| - 1], keys[|keys| - 1];
      AddAllKeeps(p, held, before);
      var q, more := AddAll(p, before).port, held + multiset(before);
      assert AddAll(p, keys) == Add(q, last);
      assert more + multiset{last} == held + multiset(keys) by { assert keys == before + [last]; }
      AddKeeps(q, more, last);
    }
  }

  lemma {:induction false} RemoveAllKeeps(p: PortState, held: multiset<Key>, keys: seq<Key>)
    requires Inv(p, held) && multiset(keys) <= held
    ensures RemoveAll(p, keys).Running? && Inv(RemoveAll(p, keys).port, held - multiset(keys))
  {
    if keys != [] {
      var before, last := keys[..|keys| - 1], keys[|keys| - 1];
      assert keys == before + [last];
      assert multiset(keys) == multiset(before) + multiset{last};
      RemoveAllKeeps(p, held, before);
      RemoveKeeps(RemoveAll(p, before).port, held - multiset(before), last);
      assert held - multiset(before) - multiset{last} == held - multiset(keys);
    }
  }

  lemma OnePort(w: World, w': World, p: Port)
    requires WorldInv(w) && PortInv(w', p)
    requires forall q: Port | q != p ::
               && (q in w.ports <==> q in w'.ports) && (q in w.ports ==> w.ports[q] == w'.ports[q])
               && (q in w.held <==> q in w'.held) && (q in w.held ==> w.held[q] == w'.held[q])
               && (q in w.classes <==> q in w'.classes) && (q in w.classes ==> w.classes[q] == w'.classes[q])
    ensures WorldInv(w')
  {
    forall q: Port ensures PortInv(w', q) {
      assert PortInv(w, q);
    }
  }

  lemma SomeClass(w: World, p: Port)
    requires PortInv(w, p) && HasClasses(w, p)
    ensures p in w.ports && w.ports[p].counts != map[]
  {
    var c :| c in w.classes[p];
    assert c in w.ports[p].counts;
  }

  lemma AddToKeeps(w: World, p: Port, key: Key)
    requires WorldInv(w)
    ensures AddTo(w, p, key).Next? && WorldInv(AddTo(w, p, key).world)
  {
    if HasClasses(w, p) {
      assert PortInv(w, p);
      SomeClass(w, p);
      AddKeeps(w.ports[p], w.held[p], key);
      OnePort(w, AddTo(w, p, key).world, p);
    }
  }

  lemma RemoveFromKeeps(w: World, p: Port, key: Key)
    requires WorldInv(w) && (HasClasses(w, p) ==> key in HeldAt(w, p))
    ensures RemoveFrom(w, p, key).Next? && WorldInv(RemoveFrom(w, p, key).world)
  {
    if HasClasses(w, p) {
      assert PortInv(w, p);
      RemoveKeeps(w.ports[p], w.held[p], key);
      OnePort(w, RemoveFrom(w, p, key).world, p);
    }
  }

  lemma FreshPort(classes: set<Class>, keys: seq<Key>)
    requires classes != {}
    ensures var r := AddAll(InitPort(classes), keys);
            r.Running? && Inv(r.port, multiset(keys)) && r.port.counts.Keys == classes && Balanced(r.port)
  {
    InitKeeps(classes);
    var c :| c in classes;
    assert c in InitPort(classes).counts;
    AddAllKeeps(InitPort(classes), multiset{}, keys);
    assert multiset{} + multiset(keys) == multiset(keys);
  }

  lemma PortReplaced(w: World, p: Port, classes: set<Class>, port: PortState, held: multiset<Key>)
    requires WorldInv(w) && Inv(port, held) && classes <= port.counts.Keys
    ensures WorldInv(World(w.ports[p := port], w.classes[p := classes], w.held[p := held]))
  {
    var w' := World(w.ports[p := port], w.classes[p := classes], w.held[p := held]);
    assert PortInv(w', p);
    OnePort(w, w', p);
  }

  lemma ChangeClassesKeeps(w: World, p: Port, classes: set<Class>, cleared: seq<Key>, resolved: seq<Key>)
    requires WorldInv(w) && p in w.classes && multiset(cleared) <= HeldAt(w, p)
    ensures var r := ChangeClasses(w, p, classes, cleared, resolved); r.Next? && WorldInv(r.world)
  {
    if classes != w.classes[p] {
      assert RemoveAll(PortOf(w, p), cleared).Running? by {
        assert PortInv(w, p);
        ClearSucceeds(w, p, cleared);
      }
      if classes != {} {
        FreshPort(classes, resolved);
      }
      var port := if classes == {} then InitPort(classes) else AddAll(InitPort(classes), resolved).port;
      var held := if classes == {} then multiset{} else multiset(resolved);
      assert Inv(port, held) && classes <= port.counts.Keys by { InitKeeps(classes); }
      var w' := World(w.ports[p := port], w.classes[p := classes], w.held[p := held]);
      assert ChangeClasses(w, p, classes, cleared, resolved) == Next(w');
      PortReplaced(w, p, classes, port, held);
    }
  }

  lemma ClearSucceeds(w: World, p: Port, cleared: seq<Key>)
    requires PortInv(w, p) && multiset(cleared) <= HeldAt(w, p)
    ensures RemoveAll(PortOf(w, p), cleared).Running?
  {
    if p in w.ports {
      RemoveAllKeeps(w.ports[p], w.held[p], cleared);
    } else {
      assert multiset(cleared) == multiset{};
      assert cleared == [];
    }
  }

  /** Whatever comes next, no CHECK fails and the invariant is kept. */
  lemma StepKeeps(w: World, e: Event)
    requires WorldInv(w) && Enabled(w, e)
    ensures Step(w, e).Next? && WorldInv(Step(w, e).world)
  {
    match e
    case Added(p, key) => AddToKeeps(w, p, key);
    case Removed(p, key) => RemoveFromKeeps(w, p, key);
    case ClassesChanged(p, classes, cleared, resolved) => ChangeClassesKeeps(w, p, classes, cleared, resolved);
    case PortAdded(p, classes) =>
      assert PortInv(w, p);
      InitKeeps(classes);
      OnePort(w, Step(w, e).world, p);
    case PortRemoved(p) => OnePort(w, Step(w, e).world, p);
  }

  lemma BootedInv(w: World, found: map<Port, seq<Found>>)
    requires Booted(w, found)
    ensures WorldInv(w)
  {
    forall p: Port ensures PortInv(w, p) {
      if p in found {
        RebuildExact(w.classes[p], found[p]);
        RebuiltClasses(w.classes[p], found[p]);
      }
    }
  }

  lemma {:induction false} RebuiltClasses(classes: set<Class>, found: seq<Found>)
    requires Rebuilt(classes, found).Running?
    ensures classes <= Rebuilt(classes, found).port.counts.Keys
  {
    if found != [] {
      RebuiltClasses(classes, found[..|found| - 1]);
    }
  }

  lemma {:induction false} RunInv(worlds: seq<World>, events: seq<Event>, i: nat)
    requires IsRun(worlds, events) && i < |worlds|
    ensures WorldInv(worlds[i])
  {
    if i == 0 {
      var found :| Booted(worlds[0], found);
      BootedInv(worlds[0], found);
    } else {
      RunInv(worlds, events, i - 1);
      StepKeeps(worlds[i - 1], events[i - 1]);
    }
  }

  /** In every reachable state each counter is the number of keys of its class, and each key's
      reference count is the number of its live holders and positive; so the next step, whatever
      it is, meets no failing CHECK. */
  lemma CountersExact(worlds: seq<World>, events: seq<Event>, i: nat, p: Port)
    requires IsRun(worlds, events) && i < |worlds| && p in worlds[i].ports
    ensures var port := worlds[i].ports[p];
            && (forall c | c in port.counts :: port.counts[c] == |KeysOf(port, c)|)
            && (forall k | k in port.slots ::
                  port.slots[k].refCnt == HeldAt(worlds[i], p)[k] > 0 && port.slots[k].classID in port.counts)
            && (forall k: Key :: k in HeldAt(worlds[i], p) ==> k in port.slots)
    ensures forall e | Enabled(worlds[i], e) :: Step(worlds[i], e).Next?
  {
    RunInv(worlds, events, i);
    assert PortInv(worlds[i], p);
    assert forall k: Key :: RefCnt(worlds[i].ports[p], k) == worlds[i].held[p][k];
    forall e | Enabled(worlds[i], e) ensures Step(worlds[i], e).Next? {
      StepKeeps(worlds[i], e);
    }
  }

  /** The class has keys on the port at most as often as any other, and is the lowest such. */
  ghost predicate FewestKeys(port: PortState, c: Class)
  {
    c in port.counts && forall d | d in port.counts ::
      |KeysOf(port, c)| < |KeysOf(port, d)| || (|KeysOf(port, c)| == |KeysOf(port, d)| && c <= d)
  }

  /** In every run a key that nobody holds on a port with classes gets the lowest of those classes
      that have the fewest keys there. */
  lemma NewKeyGetsFewest(worlds: seq<World>, events: seq<Event>, i: nat, p: Port, key: Key)
    requires IsRun(worlds, events) && i < |events| && events[i] == Added(p, key)
    requires HasClasses(worlds[i], p) && key !in HeldAt(worlds[i], p)
    ensures p in worlds[i].ports && p in worlds[i + 1].ports && key in worlds[i + 1].ports[p].slots
    ensures FewestKeys(worlds[i].ports[p], worlds[i + 1].ports[p].slots[key].classID)
  {
    RunInv(worlds, events, i);
    assert PortInv(worlds[i], p);
    SomeClass(worlds[i], p);
    var port := worlds[i].ports[p];
    assert RefCnt(port, key) == worlds[i].held[p][key];
    AddsLeastLoaded(port, key);
    assert forall c | c in port.counts :: port.counts[c] == |KeysOf(port, c)|;
  }

  // ---- balance and stability ----

  /** Whether the event leaves port `p` alone or adds to it. */
  predicate OnlyAdds(e: Event, p: Port)
  {
    e.port != p || e.Added?
  }

  /** The port has counters for exactly its classes, and they differ by at most one. */
  ghost predicate Fair(w: World, p: Port)
  {
    HasClasses(w, p) && p in w.ports && w.ports[p].counts.Keys == w.classes[p] && Balanced(w.ports[p])
  }

  lemma AddStaysBalanced(w: World, e: Event, w': World, p: Port)
    requires WorldInv(w) && Enabled(w, e) && Step(w, e) == Next(w') && OnlyAdds(e, p)
    requires Fair(w, p)
    ensures Fair(w', p)
  {
    if e.port == p {
      assert PortInv(w, p);
      SomeClass(w, p);
      AddKeeps(w.ports[p], w.held[p], e.key);
    }
  }

  lemma {:induction false} AddsStayBalanced(worlds: seq<World>, events: seq<Event>, i: nat, j: nat, p: Port)
    requires IsRun(worlds, events) && i <= j < |worlds| && Fair(worlds[i], p)
    requires forall k | i <= k < j :: OnlyAdds(events[k], p)
    ensures Fair(worlds[j], p)
    decreases j
  {
    if i < j {
      var w, e := worlds[j - 1], events[j - 1];
      assert Fair(w, p) by { AddsStayBalanced(worlds, events, i, j - 1, p); }
      assert WorldInv(w) by { RunInv(worlds, events, j - 1); }
      assert Enabled(w, e) && Step(w, e) == Next(worlds[j]);
      AddStaysBalanced(w, e, worlds[j], p);
    }
  }

  /** The event starts port `p`, or repopulates it after its class list changed. */
  predicate StartsPort(w: World, e: Event, p: Port)
  {
    && e.port == p && (e.PortAdded? || e.ClassesChanged?)
    && e.classes != {} && (p in w.classes ==> e.classes != w.classes[p])
  }

  lemma StartsBalanced(w: World, e: Event, w': World, p: Port)
    requires WorldInv(w) && Enabled(w, e) && Step(w, e) == Next(w') && StartsPort(w, e, p)
    ensures Fair(w', p)
  {
    assert PortInv(w, p);
    if e.PortAdded? {
      InitKeeps(e.classes);
    } else {
      FreshPort(e.classes, e.resolved);
    }
  }

  lemma BootsBalanced(w: World, found: map<Port, seq<Found>>, p: Port)
    requires Booted(w, found) && HasClasses(w, p) && HeldAt(w, p) == multiset{}
    ensures Fair(w, p)
  {
    InitKeeps(w.classes[p]);
  }

  /** In world `i` port `p` was just started: it booted with nothing found, was added, or was
      repopulated after its class list changed. */
  predicate StartedAt(worlds: seq<World>, events: seq<Event>, i: nat, p: Port)
    requires i < |worlds| == |events| + 1
  {
    if i == 0 then HasClasses(worlds[0], p) && HeldAt(worlds[0], p) == multiset{}
    else StartsPort(worlds[i - 1], events[i - 1], p)
  }

  /** From there on, and through any run that only adds, every key has one of the port's classes, and
      no two of these differ by more than one key. */
  lemma BalancedAfterStart(worlds: seq<World>, events: seq<Event>, i: nat, j: nat, p: Port)
    requires IsRun(worlds, events) && i <= j < |worlds| && StartedAt(worlds, events, i, p)
    requires forall k | i <= k < j :: OnlyAdds(events[k], p)
    ensures p in worlds[j].ports && p in worlds[j].classes
    ensures var port, classes := worlds[j].ports[p], worlds[j].classes[p];
            && (forall key | key in port.slots :: port.slots[key].classID in classes)
            && forall c, d | c in classes && d in classes :: |KeysOf(port, c)| <= |KeysOf(port, d)| + 1
  {
    if i == 0 {
      var found :| Booted(worlds[0], found);
      BootsBalanced(worlds[0], found, p);
    } else {
      RunInv(worlds, events, i - 1);
      StartsBalanced(worlds[i - 1], events[i - 1], worlds[i], p);
    }
    AddsStayBalanced(worlds, events, i, j, p);
    RunInv(worlds, events, j);
    assert PortInv(worlds[j], p);
    var port := worlds[j].ports[p];
    assert forall c | c in port.counts :: port.counts[c] == |KeysOf(port, c)|;
  }

  /** Whether the event leaves port `p` alone, or adds to it or removes from it. */
  predicate KeepsClasses(e: Event, p: Port)
  {
    e.port != p || e.Added? || e.Removed?
  }

  lemma Elsewhere(w: World, e: Event, p: Port)
    requires Enabled(w, e) && e.port != p && Step(w, e).Next?
    ensures var w' := Step(w, e).world;
            && (p in w.ports <==> p in w'.ports) && (p in w.ports ==> w.ports[p] == w'.ports[p])
            && (p in w.held <==> p in w'.held) && (p in w.held ==> w.held[p] == w'.held[p])
  {
  }

  lemma SlotKept(port: PortState, r: Outcome, other: Key, key: Key)
    requires r == Add(port, other) || r == Remove(port, other)
    requires r.Running? && key in port.slots && key in r.port.slots
    ensures r.port.slots[key].classID == port.slots[key].classID
  {
  }

  lemma StepKeepsClass(w: World, e: Event, p: Port, key: Key)
    requires WorldInv(w) && Enabled(w, e) && KeepsClasses(e, p)
    requires p in w.ports && key in w.ports[p].slots
    requires Step(w, e).Next? && key in HeldAt(Step(w, e).world, p)
    ensures var w' := Step(w, e).world;
            p in w'.ports && key in w'.ports[p].slots && w'.ports[p].slots[key].classID == w.ports[p].slots[key].classID
  {
    var w' := Step(w, e).world;
    if e.port != p {
      Elsewhere(w, e, p);
    } else {
      assert p in w'.ports && key in w'.ports[p].slots by {
        StepKeeps(w, e);
        assert PortInv(w', p);
        assert RefsMatch(w'.ports[p], w'.held[p]);
      }
      if HasClasses(w, p) {
        var r := if e.Added? then Add(w.ports[p], e.key) else Remove(w.ports[p], e.key);
        assert w'.ports[p] == r.port;
        SlotKept(w.ports[p], r, e.key, key);
      }
    }
  }

  predicate HasClass(w: World, p: Port, key: Key, c: Class)
  {
    p in w.ports && key in w.ports[p].slots && w.ports[p].slots[key].classID == c
  }

  predicate StillHeld(e: Event, after: World, p: Port, key: Key)
  {
    KeepsClasses(e, p) && key in HeldAt(after, p)
  }

  lemma ClassKeptBy(w: World, e: Event, w': World, p: Port, key: Key, c: Class)
    requires WorldInv(w) && Enabled(w, e) && Step(w, e) == Next(w')
    requires HasClass(w, p, key, c) && StillHeld(e, w', p, key)
    ensures HasClass(w', p, key, c)
  {
    StepKeepsClass(w, e, p, key);
  }

  /** A key keeps its class as long as any holder remains, until the class list changes. */
  lemma {:induction false} ClassIsKept(worlds: seq<World>, events: seq<Event>, i: nat, j: nat,
                                       p: Port, key: Key, c: Class)
    requires IsRun(worlds, events) && i <= j < |worlds| && HasClass(worlds[i], p, key, c)
    requires forall k | i <= k < j :: StillHeld(events[k], worlds[k + 1], p, key)
    ensures HasClass(worlds[j], p, key, c)
    decreases j
  {
    if i < j {
      var k := j - 1;
      ClassIsKept(worlds, events, i, k, p, key, c);
      RunInv(worlds, events, k);
      assert StillHeld(events[k], worlds[k + 1], p, key);
      ClassKeptBy(worlds[k], events[k], worlds[k + 1], p, key, c);
    }
  }
}
