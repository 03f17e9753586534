/** The updater object and its two maps, indexed by port. */
module LookupClassUpdater {
  import opened Wrappers
  import opened LookupClasses
  import opened LookupRuns
  import opened LookupDeltas
  import opened LookupTables

  /** The lowest class with the fewest keys. */
  method GetClassIDWithMinimumNeighbors(classID2Count: map<Class, int>) returns (classID: Class)
    requires classID2Count != map[]
    ensures classID == LeastLoaded(classID2Count)
  {
    classID :| classID in classID2Count;
    var todo := classID2Count.Keys - {classID};
    while todo != {}
      invariant todo <= classID2Count.Keys && LeastAmong(classID2Count, classID2Count.Keys - todo, classID)
      decreases |todo|
    {
      var c :| c in todo;
      OneMore(classID2Count, classID2Count.Keys - todo, classID, c);
      assert classID2Count.Keys - todo + {c} == classID2Count.Keys - (todo - {c});
      if !Better(classID2Count, classID, c) {
        classID := c;
      }
      todo := todo - {c};
    }
    assert classID2Count.Keys - {} == classID2Count.Keys;
    LeastLoadedUnique(classID2Count, classID);
  }

  // ---- partial passes over the tables ----

  lemma EnumeratesMore(order: seq<Id>, s: set<Id>, id: Id)
    requires Enumerates(order, s) && id !in s
    ensures Enumerates(order + [id], s + {id})
  {
  }

  /** Any set can be gone over in some order. */
  lemma {:induction false} SomeOrder(s: set<Id>) returns (order: seq<Id>)
    ensures Enumerates(order, s)
    decreases |s|
  {
    if s == {} {
      order := [];
    } else {
      var id :| id in s;
      order := SomeOrder(s - {id});
      EnumeratesMore(order, s - {id}, id);
      assert s - {id} + {id} == s;
      order := order + [id];
    }
  }

  /** A pass that stopped early is the beginning of a whole one. */
  lemma {:induction false} Completed(order: seq<Id>, s: set<Id>, rest: seq<Id>, r: set<Id>)
    requires Enumerates(order, s) && Enumerates(rest, r) && s !! r
    ensures Enumerates(order + rest, s + r)
    decreases |rest|
  {
    if rest == [] {
      assert order + rest == order && s + r == s;
    } else {
      var before, id := rest[..|rest| - 1], rest[|rest| - 1];
      EnumeratesBut(rest, r);
      Completed(order, s, before, r - {id});
      EnumeratesMore(order + before, s + (r - {id}), id);
      assert order + before + [id] == order + rest && s + (r - {id}) + {id} == s + r;
    }
  }

  lemma KeysInPush(t: Tables, order: seq<Id>, id: Id)
    requires (forall x | x in order :: x in t) && id in t
    ensures (forall x | x in order + [id] :: x in t) && KeysIn(t, order + [id]) == KeysIn(t, order) + [KeyOf(id, t[id])]
  {
    assert (order + [id])[..|order|] == order;
  }

  lemma {:induction false} KeysInPrefix(t: Tables, order: seq<Id>, rest: seq<Id>)
    requires forall x | x in order + rest :: x in t
    ensures forall x | x in order :: x in t
    ensures |KeysIn(t, order)| <= |KeysIn(t, order + rest)|
    ensures KeysIn(t, order + rest)[..|KeysIn(t, order)|] == KeysIn(t, order)
    decreases |rest|
  {
    assert forall x | x in order :: x in order + rest;
    if rest == [] {
      assert order + rest == order;
    } else {
      var before := rest[..|rest| - 1];
      assert (order + rest)[..|order + rest| - 1] == order + before;
      assert forall x | x in order + before :: x in order + rest;
      KeysInPrefix(t, order, before);
    }
  }

  lemma FoundInPush(t: Tables, order: seq<Id>, id: Id)
    requires (forall x | x in order :: x in t && t[x].classID.Some?) && id in t && t[id].classID.Some?
    ensures (forall x | x in order + [id] :: x in t && t[x].classID.Some?)
    ensures FoundIn(t, order + [id]) == FoundIn(t, order) + [Found(KeyOf(id, t[id]), t[id].classID.value)]
  {
    assert (order + [id])[..|order|] == order;
  }

  lemma RemoveAllPush(p: PortState, keys: seq<Key>, key: Key)
    ensures RemoveAll(p, keys + [key]) ==
            if RemoveAll(p, keys).Failed? then Failed else Remove(RemoveAll(p, keys).port, key)
  {
    assert (keys + [key])[..|keys|] == keys;
  }

  lemma AddAllPush(p: PortState, keys: seq<Key>, key: Key)
    ensures AddAll(p, keys + [key]) == if AddAll(p, keys).Failed? then Failed else Add(AddAll(p, keys).port, key)
  {
    assert (keys + [key])[..|keys|] == keys;
  }

  lemma RebuiltPush(classes: set<Class>, found: seq<Found>, f: Found)
    ensures Rebuilt(classes, found + [f]) ==
            if Rebuilt(classes, found).Failed? then Failed else Restore(Rebuilt(classes, found).port, f.key, f.classID)
  {
    assert (found + [f])[..|found|] == found;
  }

  lemma {:induction false} RemoveAllStops(p: PortState, keys: seq<Key>, n: nat)
    requires n <= |keys| && RemoveAll(p, keys[..n]).Failed?
    ensures RemoveAll(p, keys).Failed?
    decreases |keys|
  {
    if n < |keys| {
      assert keys[..|keys| - 1][..n] == keys[..n];
      RemoveAllStops(p, keys[..|keys| - 1], n);
    } else {
      assert keys[..n] == keys;
    }
  }

  /** A clear that failed midway is one that fails. */
  lemma ClearStopped(p: PortState, t: Tables, order: seq<Id>, done: set<Id>, all: set<Id>) returns (whole: seq<Id>)
    requires Enumerates(order, done) && done <= all <= t.Keys && RemoveAll(p, KeysIn(t, order)).Failed?
    ensures Enumerates(whole, all) && RemoveAll(p, KeysIn(t, whole)).Failed?
  {
    var rest := SomeOrder(all - done);
    Completed(order, done, rest, all - done);
    assert done + (all - done) == all;
    whole := order + rest;
    KeysInPrefix(t, order, rest);
    RemoveAllStops(p, KeysIn(t, whole), |KeysIn(t, order)|);
  }

  /** Two entries on the port that share MAC and VLAN but not the class, found midway. */
  lemma Inconsistent(t: Tables, done: set<Id>, all: set<Id>)
    requires (forall id | id in all :: id in t && t[id].classID.Some?) && done <= all && !OneClassPerKey(t, done)
    ensures !OneClassPerKey(t, all)
  {
  }

  class Updater {
    var port2MacAndVlanEntries: map<Port, map<Key, Slot>>
    var port2ClassIDAndCount: map<Port, map<Class, int>>
    ghost var world: World

    ghost predicate Valid()
      reads this
    {
      && port2MacAndVlanEntries.Keys == port2ClassIDAndCount.Keys == world.ports.Keys
      && forall p | p in world.ports ::
           world.ports[p] == PortState(port2MacAndVlanEntries[p], port2ClassIDAndCount[p])
    }

    constructor ()
      ensures Valid() && world == World(map[], map[], map[])
    {
      port2MacAndVlanEntries, port2ClassIDAndCount := map[], map[];
      world := World(map[], map[], map[]);
    }

    /** What indexing the two maps by `p` gives, which is empty for a port not seen before. */
    method Load(p: Port) returns (slots: map<Key, Slot>, counts: map<Class, int>)
      requires Valid()
      ensures PortState(slots, counts) == PortOf(world, p)
    {
      slots := if p in port2MacAndVlanEntries then port2MacAndVlanEntries[p] else map[];
      counts := if p in port2ClassIDAndCount then port2ClassIDAndCount[p] else map[];
    }

    method Store(p: Port, slots: map<Key, Slot>, counts: map<Class, int>, ghost held: multiset<Key>)
      requires Valid()
      modifies this
      ensures Valid() && Next(world) == Put(old(world), p, Running(PortState(slots, counts)), held)
    {
      port2MacAndVlanEntries := port2MacAndVlanEntries[p := slots];
      port2ClassIDAndCount := port2ClassIDAndCount[p := counts];
      world := world.(ports := world.ports[p := PortState(slots, counts)], held := world.held[p := held]);
    }

    method InitPortState(p: Port, classes: set<Class>)
      requires Valid()
      modifies this
      ensures Valid() && Next(world) == Put(old(world), p, Running(InitPort(classes)), multiset{})
    {
      var counts: map<Class, int> := map[];
      var todo := classes;
      while todo != {}
        invariant todo <= classes && counts == map c | c in classes - todo :: 0
        decreases |todo|
      {
        var c :| c in todo;
        counts := counts[c := 0];
        todo := todo - {c};
      }
      assert classes - {} == classes;
      assert PortState(map[], counts) == InitPort(classes);
      Store(p, map[], counts, multiset{});
    }

    /** The allocation of `updateNeighborClassID`; `ok` is false when a CHECK fails. */
    method AddHolder(p: Port, key: Key) returns (ok: bool, classID: Class)
      requires Valid()
      modifies this
      ensures ok == Add(PortOf(old(world), p), key).Running?
      ensures ok ==>
                && Valid()
                && Next(world) ==
                   Put(old(world), p, Add(PortOf(old(world), p), key), HeldAt(old(world), p) + multiset{key})
                && key in PortOf(world, p).slots && classID == PortOf(world, p).slots[key].classID
    {
      var slots, counts := Load(p);
      ghost var held := HeldAt(world, p) + multiset{key};
      if key !in slots {
        if counts == map[] { return false, 0; }
        classID := GetClassIDWithMinimumNeighbors(counts);
        Store(p, slots[key := Slot(classID, 1)], counts[classID := counts[classID] + 1], held);
      } else {
        classID := slots[key].classID;
        Store(p, slots[key := slots[key].(refCnt := slots[key].refCnt + 1)], counts, held);
      }
      ok := true;
    }

    /** `updateNeighborClassID` on a port whose configured classes are `classes`; the answer is the
        class the neighbor is given, and none on a port without classes. */
    method UpdateNeighborClassID(p: Port, classes: set<Class>, key: Key) returns (ok: bool, classID: Option<Class>)
      requires Valid() && (HasClasses(world, p) <==> classes != {})
      modifies this
      ensures ok == AddTo(old(world), p, key).Next?
      ensures ok ==> Valid() && Next(world) == AddTo(old(world), p, key)
      ensures ok ==> classID == if classes == {} then None else Some(PortOf(world, p).slots[key].classID)
    {
      if classes == {} { return true, None; }
      var c;
      ok, c := AddHolder(p, key);
      classID := Some(c);
    }

    /** `removeNeighborFromLocalCacheForEntry`. */
    method RemoveNeighborFromLocalCache(p: Port, key: Key) returns (ok: bool)
      requires Valid()
      modifies this
      ensures ok == Remove(PortOf(old(world), p), key).Running?
      ensures ok ==>
                && Valid()
                && Next(world) ==
                   Put(old(world), p, Remove(PortOf(old(world), p), key), HeldAt(old(world), p) - multiset{key})
    {
      var slots, counts := Load(p);
      ghost var start := slots;
      var slot := if key in slots then slots[key] else Slot(0, 0);
      if slot.refCnt <= 0 { return false; }
      slot := slot.(refCnt := slot.refCnt - 1);
      slots := slots[key := slot];
      if slot.refCnt == 0 {
        var n := Count(counts, slot.classID) - 1;
        if n < 0 { return false; }
        counts := counts[slot.classID := n];
        slots := slots - {key};
        assert slots == start - {key};
      }
      Store(p, slots, counts, HeldAt(world, p) - multiset{key});
      ok := true;
    }

    /** `removeClassIDForPortAndMac`. */
    method RemoveClassID(p: Port, classes: set<Class>, key: Key) returns (ok: bool)
      requires Valid() && (HasClasses(world, p) <==> classes != {})
      modifies this
      ensures ok == RemoveFrom(old(world), p, key).Next?
      ensures ok ==> Valid() && Next(world) == RemoveFrom(old(world), p, key)
    {
      if classes == {} { return true; }
      ok := RemoveNeighborFromLocalCache(p, key);
    }

    /** The classes of a port in the switch state, and none for a port that is not there. */
    function ClassesOf(config: map<Port, set<Class>>, p: Port): set<Class>
    {
      if p in config then config[p] else {}
    }

    method MoveNeighbor(config: map<Port, set<Class>>, id: Id, was: Entry, now: Entry) returns (ok: bool)
      requires Valid() && config == world.classes && was.port.Physical? && now.port.Physical?
      modifies this
      ensures ok == MoveEntry(old(world), id, was, now).Next?
      ensures ok ==> Valid() && Next(world) == MoveEntry(old(world), id, was, now)
    {
      ok := RemoveClassID(was.port.port, ClassesOf(config, was.port.port), KeyOf(id, was));
      if !ok { return; }
      var classID;
      ok, classID := UpdateNeighborClassID(now.port.port, ClassesOf(config, now.port.port), KeyOf(id, now));
    }

    /** `processNeighborChanged`. */
    method ProcessNeighborChanged(config: map<Port, set<Class>>, id: Id, was: Entry, now: Entry) returns (ok: bool)
      requires Valid() && config == world.classes && was.port.Physical? && now.port.Physical?
      modifies this
      ensures ok == Changed(old(world), id, was, now).Next?
      ensures ok ==> Valid() && Next(world) == Changed(old(world), id, was, now)
    {
      ok := true;
      if id.kind.MacTable? {
        if was.port != now.port {
          ok := MoveNeighbor(config, id, was, now);
        }
      } else if !was.reachable && now.reachable {
        var classID;
        ok, classID := UpdateNeighborClassID(now.port.port, ClassesOf(config, now.port.port), KeyOf(id, now));
      } else if was.reachable && !now.reachable {
        ok := RemoveClassID(was.port.port, ClassesOf(config, was.port.port), KeyOf(id, was));
      } else if was.reachable && now.reachable && (was.port != now.port || was.mac != now.mac) {
        ok := MoveNeighbor(config, id, was, now);
      }
    }

    /** One delta of `processNeighborUpdates`. */
    method ProcessNeighborUpdate(config: map<Port, set<Class>>, id: Id, was: Option<Entry>, now: Option<Entry>)
      returns (ok: bool)
      requires Valid() && config == world.classes
      modifies this
      ensures ok == ProcessDelta(old(world), id, was, now).Next?
      ensures ok ==> Valid() && Next(world) == ProcessDelta(old(world), id, was, now)
    {
      ok := true;
      if Skipped(was, now) || (was.None? && now.None?) { return; }
      if was.None? {
        if id.kind.MacTable? || now.value.reachable {
          var p := now.value.port.port;
          var classID;
          ok, classID := UpdateNeighborClassID(p, ClassesOf(config, p), KeyOf(id, now.value));
        }
      } else if now.None? {
        var p := was.value.port.port;
        ok := RemoveClassID(p, ClassesOf(config, p), KeyOf(id, was.value));
      } else {
        ok := ProcessNeighborChanged(config, id, was.value, now.value);
      }
    }

    /** `updateStateObserverLocalCacheForEntry`. */
    method RestoreEntry(p: Port, key: Key, classID: Class) returns (ok: bool)
      requires Valid()
      modifies this
      ensures ok == Restore(PortOf(old(world), p), key, classID).Running?
      ensures ok ==>
                && Valid()
                && Next(world) ==
                   Put(old(world), p, Restore(PortOf(old(world), p), key, classID),
                       HeldAt(old(world), p) + multiset{key})
    {
      var slots, counts := Load(p);
      ghost var held := HeldAt(world, p) + multiset{key};
      if key !in slots {
        Store(p, slots[key := Slot(classID, 1)], counts[classID := Count(counts, classID) + 1], held);
      } else {
        if slots[key].classID != classID { return false; }
        Store(p, slots[key := slots[key].(refCnt := slots[key].refCnt + 1)], counts, held);
      }
      ok := true;
    }

    /** The warm-boot rebuild of one port: every entry on it that carries a class is restored. */
    method RebuildPort(p: Port, classes: set<Class>, t: Tables, vlans: set<nat>)
      returns (ok: bool, ghost order: seq<Id>)
      requires Valid()
      modifies this
      ensures ok <==> OneClassEach(t, p, vlans)
      ensures ok ==>
                && Enumerates(order, Classed(t, p, vlans)) && Valid()
                && Next(world) == Put(old(world), p, Rebuilt(classes, FoundIn(t, order)), KeysFound(FoundIn(t, order)))
    {
      InitPortState(p, classes);
      ClassesAgree(t, p, vlans);
      order := [];
      var todo := Classed(t, p, vlans);
      ghost var all := todo;
      assert all - todo == {};
      while todo != {}
        invariant Valid() && todo <= all && Enumerates(order, all - todo)
        invariant Next(world) == Put(old(world), p, Rebuilt(classes, FoundIn(t, order)), KeysFound(FoundIn(t, order)))
        decreases |todo|
      {
        var id :| id in todo;
        RebuildStep(old(world), world, p, classes, t, order, id);
        ok := RestoreEntry(p, KeyOf(id, t[id]), t[id].classID.value);
        PassOn(order, all, todo, id);
        todo := todo - {id};
        order := order + [id];
        if !ok {
          RebuildsOver(classes, t, all - todo, order);
          Inconsistent(t, all - todo, all);
          return;
        }
      }
      assert all - {} == all;
      RebuildsExactly(classes, t, p, vlans, order);
      ok := true;
    }

    /** One entry of a clear. */
    method ClearOne(p: Port, t: Tables, id: Id, ghost order: seq<Id>, ghost w0: World) returns (ok: bool)
      requires Valid() && id in t && (forall x | x in order :: x in t) && SameBut(w0, world, p)
      requires RemoveAll(PortOf(w0, p), KeysIn(t, order)) == Running(PortOf(world, p))
      modifies this
      ensures forall x | x in order + [id] :: x in t
      ensures ok == RemoveAll(PortOf(w0, p), KeysIn(t, order + [id])).Running?
      ensures ok ==>
                && Valid() && SameBut(w0, world, p)
                && RemoveAll(PortOf(w0, p), KeysIn(t, order + [id])) == Running(PortOf(world, p))
    {
      ghost var key, w1 := KeyOf(id, t[id]), world;
      KeysInPush(t, order, id);
      assert RemoveAll(PortOf(w0, p), KeysIn(t, order + [id])) == Remove(PortOf(w1, p), key) by {
        RemoveAllPush(PortOf(w0, p), KeysIn(t, order), key);
      }
      ok := RemoveNeighborFromLocalCache(p, KeyOf(id, t[id]));
      if ok {
        PutIsSameBut(w0, w1, p, Remove(PortOf(w1, p), key), HeldAt(w1, p) - multiset{key});
      }
    }

    /** `clearClassIdsForResolvedNeighbors`: every entry on the port that carries a class is given
        up. `order` is a whole pass, of which a failing clear is the beginning. */
    method ClearClassIDs(p: Port, t: Tables, vlans: set<nat>) returns (ok: bool, ghost order: seq<Id>)
      requires Valid()
      modifies this
      ensures Enumerates(order, Classed(t, p, vlans))
      ensures ok == RemoveAll(PortOf(old(world), p), KeysIn(t, order)).Running?
      ensures ok ==> Valid() && SameBut(old(world), world, p)
    {
      order := [];
      var todo := Classed(t, p, vlans);
      ghost var all := todo;
      assert all - todo == {};
      while todo != {}
        invariant Valid() && todo <= all && Enumerates(order, all - todo) && SameBut(old(world), world, p)
        invariant RemoveAll(PortOf(old(world), p), KeysIn(t, order)) == Running(PortOf(world, p))
        decreases |todo|
      {
        var id :| id in todo;
        ok := ClearOne(p, t, id, order, old(world));
        PassOn(order, all, todo, id);
        todo := todo - {id};
        order := order + [id];
        if !ok {
          order := ClearStopped(PortOf(old(world), p), t, order, all - todo, all);
          return;
        }
      }
      assert all - {} == all;
      ok := true;
    }

    /** One entry of a repopulation. */
    method RepopulateOne(p: Port, t: Tables, id: Id, ghost order: seq<Id>, ghost w0: World)
      requires Valid() && id in t && (forall x | x in order :: x in t) && PortOf(world, p).counts != map[]
      requires Next(world) == Met(w0, p, t, order)
      modifies this
      ensures forall x | x in order + [id] :: x in t
      ensures Valid() && PortOf(world, p).counts != map[] && Next(world) == Met(w0, p, t, order + [id])
    {
      AddSucceeds(PortOf(world, p), KeyOf(id, t[id]));
      MetOneMore(w0, world, p, t, order, id);
      var _, _ := AddHolder(p, KeyOf(id, t[id]));
    }

    /** `repopulateClassIdsForResolvedNeighbors` on a port that has classes: every entry on it is
        given one, resolved or not. */
    method RepopulateClassIDs(p: Port, t: Tables, vlans: set<nat>) returns (ghost order: seq<Id>)
      requires Valid() && p in world.ports && p in world.held && PortOf(world, p).counts != map[]
      modifies this
      ensures Valid() && Enumerates(order, OnPort(t, p, vlans)) && Next(world) == Met(old(world), p, t, order)
    {
      order := [];
      var todo := OnPort(t, p, vlans);
      ghost var all := todo;
      assert all - todo == {};
      NothingMet(world, p, t);
      while todo != {}
        invariant Valid() && todo <= all && Enumerates(order, all - todo)
        invariant Next(world) == Met(old(world), p, t, order) && PortOf(world, p).counts != map[]
        decreases |todo|
      {
        var id :| id in todo;
        RepopulateOne(p, t, id, order, old(world));
        PassOn(order, all, todo, id);
        todo := todo - {id};
        order := order + [id];
      }
      assert all - {} == all;
    }

    /** A port that gives up its old list starts over with the new one. */
    method StartOver(p: Port, classes: set<Class>, t: Tables, vlans: set<nat>, ghost w0: World)
      returns (ghost met: seq<Id>)
      requires Valid() && SameBut(w0, world, p)
      modifies this
      ensures Valid() && Enumerates(met, OnPort(t, p, vlans))
      ensures Next(world) == Restarted(w0, p, classes, KeysIn(t, met))
    {
      ghost var w1 := world;
      InitPortState(p, classes);
      if classes == {} {
        met := SomeOrder(OnPort(t, p, vlans));
        PutSame(w0, w1, p, Running(InitPort(classes)), multiset{});
      } else {
        InitHasClasses(classes);
        met := RepopulateClassIDs(p, t, vlans);
        MetFromStart(w0, w1, p, t, met, classes);
      }
    }

    /** `processPortChanged`, with the tables and the VLANs of the port in the old and new state. */
    method ChangePortClasses(p: Port, was: set<Class>, now: set<Class>, t: Tables,
                             oldVlans: set<nat>, newVlans: set<nat>)
      returns (ok: bool, ghost cleared: seq<Id>, ghost met: seq<Id>)
      requires Valid() && p in world.classes && was == world.classes[p]
      modifies this
      ensures Enumerates(cleared, Classed(t, p, oldVlans)) && Enumerates(met, OnPort(t, p, newVlans))
      ensures ok == ChangeClasses(old(world), p, now, KeysIn(t, cleared), KeysIn(t, met)).Next?
      ensures ok ==> Valid() && Next(world) == ChangeClasses(old(world), p, now, KeysIn(t, cleared), KeysIn(t, met))
    {
      if was == now {
        cleared := SomeOrder(Classed(t, p, oldVlans));
        met := SomeOrder(OnPort(t, p, newVlans));
        return true, cleared, met;
      }
      ok, cleared := ClearClassIDs(p, t, oldVlans);
      if !ok {
        met := SomeOrder(OnPort(t, p, newVlans));
        return;
      }
      met := StartOver(p, now, t, newVlans, old(world));
      RestartedIsChange(old(world), world, p, now, KeysIn(t, cleared), KeysIn(t, met));
      world := world.(classes := world.classes[p := now]);
    }
  }

  ghost function Restarted(w: World, p: Port, classes: set<Class>, keys: seq<Key>): Result
  {
    if classes == {} then Put(w, p, Running(InitPort(classes)), multiset{})
    else Put(w, p, AddAll(InitPort(classes), keys), multiset(keys))
  }

  lemma RestartedIsChange(w0: World, w: World, p: Port, classes: set<Class>, cleared: seq<Key>, met: seq<Key>)
    requires p in w0.classes && classes != w0.classes[p] && RemoveAll(PortOf(w0, p), cleared).Running?
    requires Next(w) == Restarted(w0, p, classes, met)
    ensures Next(w.(classes := w.classes[p := classes])) == ChangeClasses(w0, p, classes, cleared, met)
  {
  }

  /** The worlds differ on port `p` only. */
  ghost predicate SameBut(w: World, w': World, p: Port)
  {
    && w'.classes == w.classes
    && (forall q: Port | q != p ::
          && (q in w.ports <==> q in w'.ports) && (q in w.ports ==> w.ports[q] == w'.ports[q])
          && (q in w.held <==> q in w'.held) && (q in w.held ==> w.held[q] == w'.held[q]))
  }

  lemma PutTwice(w: World, p: Port, r1: Outcome, h1: multiset<Key>, r2: Outcome, h2: multiset<Key>)
    requires r1.Running?
    ensures var w1 := Put(w, p, r1, h1).world;
            PortOf(w1, p) == r1.port && HeldAt(w1, p) == h1 && Put(w1, p, r2, h2) == Put(w, p, r2, h2)
  {
    var w1 := Put(w, p, r1, h1).world;
    if r2.Running? {
      assert w1.ports[p := r2.port] == w.ports[p := r2.port] && w1.held[p := h2] == w.held[p := h2];
    }
  }

  lemma PutIsSameBut(w: World, w1: World, p: Port, r: Outcome, held: multiset<Key>)
    requires SameBut(w, w1, p) && r.Running?
    ensures SameBut(w, Put(w1, p, r, held).world, p) && PortOf(Put(w1, p, r, held).world, p) == r.port
  {
  }

  lemma PutSame(w: World, w': World, p: Port, r: Outcome, held: multiset<Key>)
    requires SameBut(w, w', p)
    ensures Put(w', p, r, held) == Put(w, p, r, held)
  {
  }

  /** What meeting the entries of a port does to it. */
  ghost function Met(w: World, p: Port, t: Tables, order: seq<Id>): Result
    requires forall x | x in order :: x in t
  {
    Put(w, p, AddAll(PortOf(w, p), KeysIn(t, order)), HeldAt(w, p) + multiset(KeysIn(t, order)))
  }

  lemma NothingMet(w: World, p: Port, t: Tables)
    requires p in w.ports && p in w.held
    ensures Met(w, p, t, []) == Next(w)
  {
    assert KeysIn(t, []) == [] && AddAll(PortOf(w, p), []) == Running(w.ports[p]);
    assert HeldAt(w, p) + multiset([]) == w.held[p];
    assert w.ports[p := w.ports[p]] == w.ports && w.held[p := w.held[p]] == w.held;
  }

  lemma MetOneMore(w0: World, w: World, p: Port, t: Tables, order: seq<Id>, id: Id)
    requires (forall x | x in order :: x in t) && id in t && Next(w) == Met(w0, p, t, order)
    ensures forall x | x in order + [id] :: x in t
    ensures Put(w, p, Add(PortOf(w, p), KeyOf(id, t[id])), HeldAt(w, p) + multiset{KeyOf(id, t[id])}) ==
            Met(w0, p, t, order + [id])
  {
    var keys, key := KeysIn(t, order), KeyOf(id, t[id]);
    var r, held := AddAll(PortOf(w0, p), keys), HeldAt(w0, p) + multiset(keys);
    KeysInPush(t, order, id);
    assert AddAll(PortOf(w0, p), keys + [key]) == Add(r.port, key) by { AddAllPush(PortOf(w0, p), keys, key); }
    assert held + multiset{key} == HeldAt(w0, p) + multiset(keys + [key]);
    PutTwice(w0, p, r, held, Add(r.port, key), held + multiset{key});
  }

  lemma MetFromStart(w0: World, w1: World, p: Port, t: Tables, met: seq<Id>, classes: set<Class>)
    requires (forall x | x in met :: x in t) && SameBut(w0, w1, p)
    ensures Met(Put(w1, p, Running(InitPort(classes)), multiset{}).world, p, t, met)
         == Put(w0, p, AddAll(InitPort(classes), KeysIn(t, met)), multiset(KeysIn(t, met)))
  {
    var init, r := Running(InitPort(classes)), AddAll(InitPort(classes), KeysIn(t, met));
    var held := multiset(KeysIn(t, met));
    assert multiset{} + held == held;
    PutTwice(w1, p, init, multiset{}, r, held);
    PutSame(w0, w1, p, r, held);
  }

  lemma PassOn(order: seq<Id>, all: set<Id>, todo: set<Id>, id: Id)
    requires Enumerates(order, all - todo) && id in todo && todo <= all
    ensures Enumerates(order + [id], all - (todo - {id}))
  {
    EnumeratesMore(order, all - todo, id);
    assert all - todo + {id} == all - (todo - {id});
  }

  lemma RebuildStep(w0: World, w: World, p: Port, classes: set<Class>, t: Tables, order: seq<Id>, id: Id)
    requires (forall x | x in order :: x in t && t[x].classID.Some?) && id in t && t[id].classID.Some?
    requires Next(w) == Put(w0, p, Rebuilt(classes, FoundIn(t, order)), KeysFound(FoundIn(t, order)))
    ensures forall x | x in order + [id] :: x in t && t[x].classID.Some?
    ensures var r := Restore(PortOf(w, p), KeyOf(id, t[id]), t[id].classID.value);
            var found := FoundIn(t, order + [id]);
            && r == Rebuilt(classes, found)
            && (r.Running? ==>
                  Put(w, p, r, HeldAt(w, p) + multiset{KeyOf(id, t[id])}) == Put(w0, p, r, KeysFound(found)))
  {
    var found, f := FoundIn(t, order), Found(KeyOf(id, t[id]), t[id].classID.value);
    var r := Rebuilt(classes, found);
    FoundInPush(t, order, id);
    assert KeysFound(found + [f]) == KeysFound(found) + multiset{f.key} by { KeysFoundPush(found, f); }
    assert Rebuilt(classes, found + [f]) == Restore(r.port, f.key, f.classID) by { RebuiltPush(classes, found, f); }
    PutTwice(w0, p, r, KeysFound(found), Restore(r.port, f.key, f.classID), KeysFound(found + [f]));
  }

  lemma KeysFoundPush(found: seq<Found>, f: Found)
    ensures KeysFound(found + [f]) == KeysFound(found) + multiset{f.key}
  {
    assert (found + [f])[..|found|] == found;
  }

  lemma AddSucceeds(p: PortState, key: Key)
    requires p.counts != map[]
    ensures Add(p, key).Running? && Add(p, key).port.counts != map[]
  {
    if key !in p.slots {
      var c := LeastLoaded(p.counts);
      assert c in Add(p, key).port.counts;
    }
  }

  lemma InitHasClasses(classes: set<Class>)
    requires classes != {}
    ensures InitPort(classes).counts != map[]
  {
    var c :| c in classes;
    assert c in InitPort(classes).counts;
  }
}
