/** The lookup class updater over whole runs: boot, table deltas, class-list changes, ports and
    VLANs that come and go. What each pass looks at is read from the tables. */
module LookupTables {
  import opened Wrappers
  import opened LookupClasses
  import opened LookupRuns
  import opened LookupDeltas

  // ---- the entries a pass goes over ----

  /** Entries that resolve to the port, on the VLANs the port is a member of. */
  function OnPort(t: Tables, p: Port, vlans: set<nat>): set<Id>
  {
    set id | id in t && t[id].port == Physical(p) && id.vlan in vlans
  }

  function Classed(t: Tables, p: Port, vlans: set<nat>): set<Id>
  {
    set id | id in OnPort(t, p, vlans) && t[id].classID.Some?
  }

  /** `order` is the order in which a pass meets the entries of `s`. */
  ghost predicate Enumerates(order: seq<Id>, s: set<Id>)
  {
    && (forall i, j | 0 <= i < j < |order| :: order[i] != order[j])
    && forall id :: id in order <==> id in s
  }

  function KeysIn(t: Tables, order: seq<Id>): seq<Key>
    requires forall id | id in order :: id in t
  {
    if order == [] then []
    else KeysIn(t, order[..|order| - 1]) + [KeyOf(order[|order| - 1], t[order[|order| - 1]])]
  }

  /** What a warm boot finds: the key and the class of each entry. */
  function FoundIn(t: Tables, order: seq<Id>): seq<Found>
    requires forall id | id in order :: id in t && t[id].classID.Some?
  {
    if order == [] then []
    else
      var id := order[|order| - 1];
      FoundIn(t, order[..|order| - 1]) + [Found(KeyOf(id, t[id]), t[id].classID.value)]
  }

  function WithKey(t: Tables, s: set<Id>, key: Key): set<Id>
  {
    set id | id in s && id in t && KeyOf(id, t[id]) == key
  }

  lemma EnumeratesBut(order: seq<Id>, s: set<Id>)
    requires Enumerates(order, s) && order != []
    ensures order[|order| - 1] in s && Enumerates(order[..|order| - 1], s - {order[|order| - 1]})
  {
    var before, last := order[..|order| - 1], order[|order| - 1];
    forall id ensures id in before <==> id in s - {last} {
      if id in s - {last} {
        var k :| 0 <= k < |order| && order[k] == id;
        assert before[k] == id;
      }
    }
  }

  lemma {:induction false} KeysCount(t: Tables, order: seq<Id>, s: set<Id>, key: Key)
    requires Enumerates(order, s) && s <= t.Keys
    ensures multiset(KeysIn(t, order))[key] == |WithKey(t, s, key)|
  {
    if order == [] {
      assert WithKey(t, s, key) == {};
    } else {
      var last := order[|order| - 1];
      EnumeratesBut(order, s);
      KeysCount(t, order[..|order| - 1], s - {last}, key);
      if KeyOf(last, t[last]) == key {
        assert WithKey(t, s, key) == WithKey(t, s - {last}, key) + {last};
      } else {
        assert WithKey(t, s, key) == WithKey(t, s - {last}, key);
      }
    }
  }

  lemma {:induction false} FoundKeys(t: Tables, order: seq<Id>)
    requires forall id | id in order :: id in t && t[id].classID.Some?
    ensures KeysFound(FoundIn(t, order)) == multiset(KeysIn(t, order))
  {
    if order != [] {
      FoundKeys(t, order[..|order| - 1]);
    }
  }

  /** Two sets are equally large when what each has and the other has not is. */
  lemma SameSize(a: set<Id>, b: set<Id>, onlyA: set<Id>, onlyB: set<Id>)
    requires onlyA == a - b && onlyB == b - a
    ensures |a| == |b| <==> |onlyA| == |onlyB|
  {
    assert a == onlyA + a * b && b == onlyB + a * b;
    assert onlyA !! a * b && onlyB !! a * b;
  }

  // ---- boot ----

  /** The rebuild of every port from the entries found with a class. */
  ghost predicate BootedFrom(w: World, t: Tables, vlans: map<Port, set<nat>>, orders: map<Port, seq<Id>>)
  {
    && vlans.Keys == orders.Keys == w.classes.Keys == w.ports.Keys == w.held.Keys
    && forall p | p in orders ::
         && Enumerates(orders[p], Classed(t, p, vlans[p]))
         && Rebuilt(w.classes[p], FoundIn(t, orders[p])) == Running(w.ports[p])
         && w.held[p] == KeysFound(FoundIn(t, orders[p]))
  }

  /** Entries of the port, on the VLANs, with one MAC and VLAN carry one class. */
  ghost predicate OneClassEach(t: Tables, p: Port, vlans: set<nat>)
  {
    forall a, b | a in t && b in t && t[a].port == Physical(p) == t[b].port && a.vlan == b.vlan && a.vlan in vlans ::
      t[a].mac == t[b].mac && t[a].classID.Some? && t[b].classID.Some? ==> t[a].classID == t[b].classID
  }

  /** Entries with one key carry one class. */
  ghost predicate OneClassPerKey(t: Tables, s: set<Id>)
    requires forall id | id in s :: id in t && t[id].classID.Some?
  {
    forall a, b | a in s && b in s && KeyOf(a, t[a]) == KeyOf(b, t[b]) :: t[a].classID == t[b].classID
  }

  lemma {:induction false} FoundAt(t: Tables, order: seq<Id>, i: nat)
    requires (forall id | id in order :: id in t && t[id].classID.Some?) && i < |order|
    ensures |FoundIn(t, order)| == |order|
    ensures FoundIn(t, order)[i] == Found(KeyOf(order[i], t[order[i]]), t[order[i]].classID.value)
  {
    if i < |order| - 1 {
      FoundAt(t, order[..|order| - 1], i);
    } else if i > 0 {
      FoundAt(t, order[..|order| - 1], i - 1);
    }
  }

  /** The rebuild of a port fails a CHECK exactly when two entries with a class, on the port and its
      VLANs, share MAC and VLAN but not the class. */
  lemma RebuildsExactly(classes: set<Class>, t: Tables, p: Port, vlans: set<nat>, order: seq<Id>)
    requires Enumerates(order, Classed(t, p, vlans))
    ensures Rebuilt(classes, FoundIn(t, order)).Running? <==> OneClassEach(t, p, vlans)
  {
    RebuildsOver(classes, t, Classed(t, p, vlans), order);
    ClassesAgree(t, p, vlans);
  }

  lemma ClassesAgree(t: Tables, p: Port, vlans: set<nat>)
    ensures OneClassPerKey(t, Classed(t, p, vlans)) <==> OneClassEach(t, p, vlans)
  {
    var s := Classed(t, p, vlans);
    if OneClassEach(t, p, vlans) {
      forall a, b | a in s && b in s && KeyOf(a, t[a]) == KeyOf(b, t[b]) ensures t[a].classID == t[b].classID {
        assert t[a].mac == t[b].mac && a.vlan == b.vlan;
      }
    }
    if OneClassPerKey(t, s) {
      forall a, b | a in t && b in t && t[a].port == Physical(p) == t[b].port && a.vlan == b.vlan && a.vlan in vlans
        ensures t[a].mac == t[b].mac && t[a].classID.Some? && t[b].classID.Some? ==> t[a].classID == t[b].classID
      {
        if t[a].mac == t[b].mac && t[a].classID.Some? && t[b].classID.Some? {
          assert a in s && b in s && KeyOf(a, t[a]) == KeyOf(b, t[b]);
        }
      }
    }
  }

  lemma RebuildsOver(classes: set<Class>, t: Tables, s: set<Id>, order: seq<Id>)
    requires Enumerates(order, s) && forall id | id in s :: id in t && t[id].classID.Some?
    ensures Rebuilt(classes, FoundIn(t, order)).Running? <==> OneClassPerKey(t, s)
  {
    var found := FoundIn(t, order);
    RebuildExact(classes, found);
    assert |found| == |order| by { if order != [] { FoundAt(t, order, 0); } }
    forall i | 0 <= i < |order|
      ensures found[i] == Found(KeyOf(order[i], t[order[i]]), t[order[i]].classID.value)
    {
      FoundAt(t, order, i);
    }
    if Consistent(found) {
      forall a, b | a in order && b in order && KeyOf(a, t[a]) == KeyOf(b, t[b])
        ensures t[a].classID == t[b].classID
      {
        var i :| 0 <= i < |order| && order[i] == a;
        var j :| 0 <= j < |order| && order[j] == b;
        assert found[i].key == found[j].key;
      }
    } else {
      var i, j :| && 0 <= i < |found| && 0 <= j < |found|
                  && found[i].key == found[j].key && found[i].classID != found[j].classID;
      assert order[i] in order && order[j] in order;
    }
  }

  /** Resolved entries at the place, whatever their class and VLAN. */
  function ResolvedAt(t: Tables, place: Place): set<Id>
  {
    set id | id in t && t[id].port == Physical(place.port) && Resolved(id, t[id])
             && t[id].mac == place.key.mac && id.vlan == place.key.vlan
  }

  lemma HoldersAre(w: World, t: Tables, place: Place)
    ensures Holders(w, t, place) == if HasClasses(w, place.port) then ResolvedAt(t, place) else {}
  {
  }

  function VlansOf(vlans: map<Port, set<nat>>, p: Port): set<nat>
  {
    if p in vlans then vlans[p] else {}
  }

  lemma BootHeld(w: World, t: Tables, vlans: map<Port, set<nat>>, orders: map<Port, seq<Id>>, place: Place)
    requires BootedFrom(w, t, vlans, orders) && place.port in w.classes
    ensures HeldAt(w, place.port)[place.key] == |WithKey(t, Classed(t, place.port, vlans[place.port]), place.key)|
  {
    var p := place.port;
    FoundKeys(t, orders[p]);
    KeysCount(t, orders[p], Classed(t, p, vlans[p]), place.key);
  }

  /** Entries at the place that carry a class, on the VLANs. */
  function ClassedAt(t: Tables, vlans: set<nat>, place: Place): set<Id>
  {
    set id | id in t && t[id].port == Physical(place.port) && t[id].classID.Some? && id.vlan in vlans
             && t[id].mac == place.key.mac && id.vlan == place.key.vlan
  }

  lemma ClassedIs(t: Tables, p: Port, vlans: set<nat>, key: Key)
    ensures WithKey(t, Classed(t, p, vlans), key) == ClassedAt(t, vlans, Place(p, key))
  {
  }

  /** Resolved entries the rebuild does not count: without a class, or off the port's VLANs. */
  function Unrestored(t: Tables, vlans: set<nat>, place: Place): set<Id>
  {
    set id | id in ResolvedAt(t, place) && (t[id].classID.None? || id.vlan !in vlans)
  }

  /** Entries the rebuild counts although they are not resolved. */
  function Overrestored(t: Tables, vlans: set<nat>, place: Place): set<Id>
  {
    set id | id in ClassedAt(t, vlans, place) && !Resolved(id, t[id])
  }

  /** The place is held as often as the tables resolve to it. */
  ghost predicate InStep(w: World, t: Tables, place: Place)
  {
    HeldAt(w, place.port)[place.key] == |Holders(w, t, place)|
  }

  lemma TracksIsInStep(w: World, t: Tables)
    ensures Tracks(w, t) <==> forall place: Place | HasClasses(w, place.port) :: InStep(w, t, place)
  {
  }

  ghost predicate RestoresAll(t: Tables, vlans: map<Port, set<nat>>, place: Place)
  {
    |Unrestored(t, VlansOf(vlans, place.port), place)| == |Overrestored(t, VlansOf(vlans, place.port), place)|
  }

  lemma BootPlace(w: World, t: Tables, vlans: map<Port, set<nat>>, orders: map<Port, seq<Id>>, place: Place)
    requires BootedFrom(w, t, vlans, orders) && HasClasses(w, place.port)
    ensures InStep(w, t, place) <==> RestoresAll(t, vlans, place)
  {
    BootHeld(w, t, vlans, orders, place);
    HoldersAre(w, t, place);
    RestoredSize(t, vlans[place.port], place);
  }

  lemma RestoredSize(t: Tables, vs: set<nat>, place: Place)
    ensures |WithKey(t, Classed(t, place.port, vs), place.key)| == |ResolvedAt(t, place)| <==>
            |Unrestored(t, vs, place)| == |Overrestored(t, vs, place)|
  {
    ClassedIs(t, place.port, vs, place.key);
    SameSize(ResolvedAt(t, place), WithKey(t, Classed(t, place.port, vs), place.key),
             Unrestored(t, vs, place), Overrestored(t, vs, place));
  }

  /** The rebuild alone leaves reference counts in step with the tables exactly when at each place
      it leaves out as many resolved entries as it counts unresolved ones. */
  lemma BootExactly(w: World, t: Tables, vlans: map<Port, set<nat>>, orders: map<Port, seq<Id>>)
    requires BootedFrom(w, t, vlans, orders)
    ensures Tracks(w, t) <==> forall place: Place | HasClasses(w, place.port) :: RestoresAll(t, vlans, place)
  {
    TracksIsInStep(w, t);
    forall place: Place | HasClasses(w, place.port) ensures InStep(w, t, place) <==> RestoresAll(t, vlans, place) {
      BootPlace(w, t, vlans, orders, place);
    }
  }

  // ---- the first delta ----

  /** The delta that follows the rebuild: every entry is new. */
  ghost function Announced(w: World, t: Tables, order: seq<Id>): Result
    requires forall id | id in order :: id in t
  {
    if order == [] then Next(w)
    else
      var r, id := Announced(w, t, order[..|order| - 1]), order[|order| - 1];
      if r.CheckFailed? then r else ProcessDelta(r.world, id, None, Some(t[id]))
  }

  /** Entries at the place that the first delta adds: resolved, with no class yet. */
  function NewAt(t: Tables, s: set<Id>, place: Place): set<Id>
  {
    set id | id in s && id in ResolvedAt(t, place) && t[id].classID.None?
  }

  /** Every place on a port with classes is held more often by its share of `s`. */
  ghost predicate HeldGrows(w: World, w': World, t: Tables, s: set<Id>)
  {
    forall place: Place | HasClasses(w, place.port) ::
      HeldAt(w', place.port)[place.key] == HeldAt(w, place.port)[place.key] + |NewAt(t, s, place)|
  }

  /** Where an entry is added when it is announced. */
  function Announces(w: World, t: Tables, id: Id): Option<Place>
    requires id in t
  {
    if Skipped(None, Some(t[id])) then None else Where(w, id, Some(t[id]))
  }

  lemma NewAtOne(w: World, t: Tables, id: Id, place: Place)
    requires id in t && HasClasses(w, place.port)
    ensures |NewAt(t, {id}, place)| == Here(Announces(w, t, id), place)
  {
    if Announces(w, t, id) == Some(place) {
      assert NewAt(t, {id}, place) == {id};
    } else {
      assert NewAt(t, {id}, place) == {};
    }
  }

  lemma AnnounceIsTake(w: World, t: Tables, id: Id)
    requires id in t
    ensures var b := Announces(w, t, id);
            ProcessDelta(w, id, None, Some(t[id])) == if b.Some? then AddTo(w, b.value.port, b.value.key) else Next(w)
  {
  }

  lemma AnnounceOne(w: World, t: Tables, id: Id)
    requires WorldInv(w) && id in t
    ensures var r := ProcessDelta(w, id, None, Some(t[id]));
            r.Next? && WorldInv(r.world) && r.world.classes == w.classes && HeldGrows(w, r.world, t, {id})
  {
    var b := Announces(w, t, id);
    AnnounceIsTake(w, t, id);
    if b.Some? {
      Take(w, b.value);
    }
    var w' := ProcessDelta(w, id, None, Some(t[id])).world;
    assert HeldShifts(w, w', None, b);
    forall place: Place | HasClasses(w, place.port)
      ensures HeldAt(w', place.port)[place.key] == HeldAt(w, place.port)[place.key] + |NewAt(t, {id}, place)|
    {
      NewAtOne(w, t, id, place);
    }
  }

  lemma NewAtSplit(t: Tables, s: set<Id>, id: Id, place: Place)
    requires id in s
    ensures |NewAt(t, s, place)| == |NewAt(t, s - {id}, place)| + |NewAt(t, {id}, place)|
  {
    var a, b := NewAt(t, s - {id}, place), NewAt(t, {id}, place);
    assert NewAt(t, s, place) == a + b && a !! b;
  }

  lemma HeldGrowsOn(w: World, w1: World, w2: World, t: Tables, s: set<Id>, id: Id)
    requires HeldGrows(w, w1, t, s - {id}) && HeldGrows(w1, w2, t, {id}) && w1.classes == w.classes && id in s
    ensures HeldGrows(w, w2, t, s)
  {
    forall place: Place | HasClasses(w, place.port)
      ensures HeldAt(w2, place.port)[place.key] == HeldAt(w, place.port)[place.key] + |NewAt(t, s, place)|
    {
      NewAtSplit(t, s, id, place);
      assert HasClasses(w1, place.port);
    }
  }

  lemma {:induction false} AnnouncedHeld(w: World, t: Tables, order: seq<Id>, s: set<Id>)
    requires WorldInv(w) && Enumerates(order, s) && s <= t.Keys
    ensures var r := Announced(w, t, order);
            r.Next? && WorldInv(r.world) && r.world.classes == w.classes && HeldGrows(w, r.world, t, s)
  {
    if order == [] {
      assert forall place: Place :: NewAt(t, s, place) == {};
    } else {
      var before, id := order[..|order| - 1], order[|order| - 1];
      EnumeratesBut(order, s);
      AnnouncedHeld(w, t, before, s - {id});
      var w1 := Announced(w, t, before).world;
      AnnounceOne(w1, t, id);
      HeldGrowsOn(w, w1, Announced(w, t, order).world, t, s, id);
    }
  }

  /** Resolved entries that carry a class but are off the port's VLANs. */
  function OffVlan(t: Tables, vlans: set<nat>, place: Place): set<Id>
  {
    set id | id in ResolvedAt(t, place) && t[id].classID.Some? && id.vlan !in vlans
  }

  ghost predicate StartsRight(t: Tables, vlans: map<Port, set<nat>>, place: Place)
  {
    |OffVlan(t, VlansOf(vlans, place.port), place)| == |Overrestored(t, VlansOf(vlans, place.port), place)|
  }

  /** What must hold of the tables an updater starts from. */
  ghost predicate SoundStart(w: World, t: Tables, vlans: map<Port, set<nat>>)
  {
    forall place: Place | HasClasses(w, place.port) :: StartsRight(t, vlans, place)
  }

  lemma StartHeld(t: Tables, vs: set<nat>, place: Place)
    ensures |WithKey(t, Classed(t, place.port, vs), place.key)| + |NewAt(t, t.Keys, place)| ==
            |ResolvedAt(t, place)| <==>
            |OffVlan(t, vs, place)| == |Overrestored(t, vs, place)|
  {
    var restored, added := WithKey(t, Classed(t, place.port, vs), place.key), NewAt(t, t.Keys, place);
    ClassedIs(t, place.port, vs, place.key);
    assert restored !! added;
    assert |restored + added| == |restored| + |added|;
    SameSize(ResolvedAt(t, place), restored + added, OffVlan(t, vs, place), Overrestored(t, vs, place));
  }

  lemma StartPlace(w: World, w': World, t: Tables, vlans: map<Port, set<nat>>, orders: map<Port, seq<Id>>, place: Place)
    requires BootedFrom(w, t, vlans, orders) && HasClasses(w, place.port)
    requires w'.classes == w.classes && HeldGrows(w, w', t, t.Keys)
    ensures InStep(w', t, place) <==> StartsRight(t, vlans, place)
  {
    BootHeld(w, t, vlans, orders, place);
    HoldersAre(w', t, place);
    StartHeld(t, vlans[place.port], place);
  }

  /** Rebuild and first delta together leave the counts in step exactly when at each place as many
      classed entries are off the port's VLANs as unresolved ones are counted. */
  lemma StartExactly(w: World, t: Tables, vlans: map<Port, set<nat>>, orders: map<Port, seq<Id>>, order: seq<Id>)
    requires BootedFrom(w, t, vlans, orders) && Enumerates(order, t.Keys)
    ensures Announced(w, t, order).Next? && WorldInv(Announced(w, t, order).world)
    ensures Announced(w, t, order).world.classes == w.classes
    ensures Tracks(Announced(w, t, order).world, t) <==> SoundStart(w, t, vlans)
  {
    assert WorldInv(w) by { BootIsBooted(w, t, vlans, orders); }
    AnnouncedHeld(w, t, order, t.Keys);
    var w' := Announced(w, t, order).world;
    TracksIsInStep(w', t);
    forall place: Place | HasClasses(w, place.port) ensures InStep(w', t, place) <==> StartsRight(t, vlans, place) {
      StartPlace(w, w', t, vlans, orders, place);
    }
    assert forall place: Place :: HasClasses(w', place.port) <==> HasClasses(w, place.port);
  }

  lemma BootIsBooted(w: World, t: Tables, vlans: map<Port, set<nat>>, orders: map<Port, seq<Id>>)
    requires BootedFrom(w, t, vlans, orders)
    ensures WorldInv(w)
  {
    BootedInv(w, map p | p in orders :: FoundIn(t, orders[p]));
  }

  // ---- changes of a port's class list ----

  /** Clearing fails no CHECK exactly when no key is given up more often than it is held. */
  lemma {:induction false} RemoveAllExactly(p: PortState, held: multiset<Key>, keys: seq<Key>)
    requires Inv(p, held)
    ensures RemoveAll(p, keys).Running? <==> multiset(keys) <= held
    ensures multiset(keys) <= held ==> Inv(RemoveAll(p, keys).port, held - multiset(keys))
  {
    if keys != [] {
      var before, last := keys[..|keys| - 1], keys[|keys| - 1];
      assert keys == before + [last];
      assert multiset(keys) == multiset(before) + multiset{last};
      RemoveAllExactly(p, held, before);
      if multiset(before) <= held {
        var rest := held - multiset(before);
        RemoveFailsExactly(RemoveAll(p, before).port, rest, last);
        TakeOneMore(held, multiset(before), last);
        if last in rest {
          RemoveKeeps(RemoveAll(p, before).port, rest, last);
        }
      } else {
        assert multiset(before) <= multiset(keys);
      }
    }
  }

  /** The condition of a clear in terms of the tables: on each key, entries with a class do not
      outnumber those the updater holds. */
  ghost predicate ClearIsHeld(w: World, t: Tables, p: Port, vlans: set<nat>)
  {
    forall key: Key :: |ClassedAt(t, vlans, Place(p, key))| <= HeldAt(w, p)[key]
  }

  lemma ClearExactly(w: World, t: Tables, p: Port, vlans: set<nat>, order: seq<Id>)
    requires WorldInv(w) && Enumerates(order, Classed(t, p, vlans))
    ensures RemoveAll(PortOf(w, p), KeysIn(t, order)).Running? <==> ClearIsHeld(w, t, p, vlans)
  {
    var keys, held := KeysIn(t, order), HeldAt(w, p);
    assert PortInv(w, p);
    assert Inv(PortOf(w, p), held) by {
      if p !in w.ports {
        NothingHeld();
      }
    }
    RemoveAllExactly(PortOf(w, p), held, keys);
    forall key: Key ensures multiset(keys)[key] == |ClassedAt(t, vlans, Place(p, key))| {
      KeysCount(t, order, Classed(t, p, vlans), key);
      ClassedIs(t, p, vlans, key);
    }
    if multiset(keys) <= held {
      assert forall key: Key :: multiset(keys)[key] <= held[key];
    }
  }

  lemma NothingHeld()
    ensures Inv(PortState(map[], map[]), multiset{})
  {
  }

  /** The same for a port the updater tracks: entries with a class do not outnumber resolved ones. */
  ghost predicate ClearFits(t: Tables, p: Port, vlans: set<nat>)
  {
    forall key: Key :: |ClassedAt(t, vlans, Place(p, key))| <= |ResolvedAt(t, Place(p, key))|
  }

  lemma ClearOnTracked(w: World, t: Tables, p: Port, vlans: set<nat>)
    requires Tracks(w, t) && HasClasses(w, p)
    ensures ClearIsHeld(w, t, p, vlans) <==> ClearFits(t, p, vlans)
  {
    forall key: Key ensures HeldAt(w, p)[key] == |ResolvedAt(t, Place(p, key))| {
      HoldersAre(w, t, Place(p, key));
      assert HeldAt(w, Place(p, key).port)[key] == |Holders(w, t, Place(p, key))|;
    }
  }

  /** Entries the repopulation counts although they are not resolved. */
  function Unresolved(t: Tables, vlans: set<nat>, place: Place): set<Id>
  {
    set id | id in t && t[id].port == Physical(place.port) && !Resolved(id, t[id]) && id.vlan in vlans
             && t[id].mac == place.key.mac && id.vlan == place.key.vlan
  }

  /** Resolved entries it does not meet. */
  function Unvisited(t: Tables, vlans: set<nat>, place: Place): set<Id>
  {
    set id | id in ResolvedAt(t, place) && id.vlan !in vlans
  }

  ghost predicate RepopulatesRight(t: Tables, p: Port, vlans: set<nat>)
  {
    forall key: Key :: |Unresolved(t, vlans, Place(p, key))| == |Unvisited(t, vlans, Place(p, key))|
  }

  lemma RepopulatedCount(t: Tables, p: Port, vlans: set<nat>, order: seq<Id>, key: Key)
    requires Enumerates(order, OnPort(t, p, vlans))
    ensures multiset(KeysIn(t, order))[key] == |ResolvedAt(t, Place(p, key))| <==>
            |Unresolved(t, vlans, Place(p, key))| == |Unvisited(t, vlans, Place(p, key))|
  {
    KeysCount(t, order, OnPort(t, p, vlans), key);
    SameSize(WithKey(t, OnPort(t, p, vlans), key), ResolvedAt(t, Place(p, key)),
             Unresolved(t, vlans, Place(p, key)), Unvisited(t, vlans, Place(p, key)));
  }

  // ---- events ----

  datatype Event =
    | Change(id: Id, now: Option<Entry>)
    | NewClasses(port: Port, classes: set<Class>, oldVlans: set<nat>, newVlans: set<nat>,
                 cleared: seq<Id>, met: seq<Id>)
    | NewPort(port: Port, classes: set<Class>)
    | GonePort(port: Port, vlans: set<nat>)
    | GoneVlan(vlan: nat)

  /** `cleared` and `met` are the orders in which a class-list change meets the entries. */
  ghost predicate Enabled(w: World, t: Tables, e: Event)
  {
    match e
    case Change(id, now) => WellFormed(id, now)
    case NewClasses(p, _, oldVlans, newVlans, cleared, met) =>
      p in w.classes && Enumerates(cleared, Classed(t, p, oldVlans)) && Enumerates(met, OnPort(t, p, newVlans))
    case NewPort(p, _) => p !in w.classes
    case GonePort(p, _) => p in w.classes
    case GoneVlan(_) => true
  }

  function After(t: Tables, e: Event): Tables
  {
    match e
    case Change(id, now) => Updated(t, id, now)
    case GoneVlan(v) => map id | id in t && id.vlan != v :: t[id]
    case _ => t
  }

  /** A VLAN that is gone takes its entries along unprocessed; a port that is gone must not be
      resolved to. */
  ghost function Step(w: World, t: Tables, e: Event): Result
    requires Enabled(w, t, e)
  {
    match e
    case Change(id, now) => ProcessDelta(w, id, Lookup(t, id), now)
    case NewClasses(p, classes, _, _, cleared, met) => ChangeClasses(w, p, classes, KeysIn(t, cleared), KeysIn(t, met))
    case NewPort(p, classes) => LookupRuns.Step(w, PortAdded(p, classes))
    case GonePort(p, vlans) =>
      if OnPort(t, p, vlans) != {} then CheckFailed else LookupRuns.Step(w, PortRemoved(p))
    case GoneVlan(_) => Next(w)
  }

  /** What must hold of an event for counts and tables to stay in step. */
  ghost predicate SoundEvent(w: World, t: Tables, e: Event)
    requires Enabled(w, t, e)
  {
    match e
    case Change(id, now) => Sound(w, id, Lookup(t, id), now)
    case NewClasses(p, classes, oldVlans, newVlans, _, _) =>
      classes == w.classes[p] || (ClearIsHeld(w, t, p, oldVlans) && (classes == {} || RepopulatesRight(t, p, newVlans)))
    case NewPort(p, classes) =>
      classes == {} || forall id | id in t && t[id].port == Physical(p) :: !Resolved(id, t[id])
    case GonePort(p, vlans) => forall id | id in t && id.vlan in vlans :: t[id].port != Physical(p)
    case GoneVlan(v) => forall id | id in t && id.vlan == v :: Where(w, id, Some(t[id])) == None
  }

  // ---- every event, exactly ----

  lemma RemoveEntryKeeps(w: World, id: Id, e: Entry)
    requires WorldInv(w) && e.port.Physical? && RemoveEntry(w, id, e).Next?
    ensures WorldInv(RemoveEntry(w, id, e).world)
  {
    var p := e.port.port;
    if HasClasses(w, p) {
      assert PortInv(w, p);
      RemoveFailsExactly(w.ports[p], w.held[p], KeyOf(id, e));
    }
    RemoveFromKeeps(w, p, KeyOf(id, e));
  }

  lemma ChangedKeeps(w: World, id: Id, was: Entry, now: Entry)
    requires WorldInv(w) && was.port.Physical? && now.port.Physical? && Changed(w, id, was, now).Next?
    ensures WorldInv(Changed(w, id, was, now).world)
  {
    if RemoveEntry(w, id, was).Next? {
      RemoveEntryKeeps(w, id, was);
      AddToKeeps(RemoveEntry(w, id, was).world, now.port.port, KeyOf(id, now));
    }
    AddToKeeps(w, now.port.port, KeyOf(id, now));
  }

  lemma DeltaKeeps(w: World, id: Id, was: Option<Entry>, now: Option<Entry>)
    requires WorldInv(w) && ProcessDelta(w, id, was, now).Next?
    ensures WorldInv(ProcessDelta(w, id, was, now).world)
  {
    if !Skipped(was, now) {
      if was.Some? && now.Some? {
        ChangedKeeps(w, id, was.value, now.value);
      } else if was.Some? {
        RemoveEntryKeeps(w, id, was.value);
      } else if now.Some? {
        AddToKeeps(w, now.value.port.port, KeyOf(id, now.value));
      }
    }
  }

  /** A class-list change whose clear is held succeeds, and its port then holds what was met. */
  lemma NewClassesHeld(w: World, p: Port, classes: set<Class>, cleared: seq<Key>, met: seq<Key>)
    requires WorldInv(w) && p in w.classes && classes != w.classes[p] && RemoveAll(PortOf(w, p), cleared).Running?
    ensures var r := ChangeClasses(w, p, classes, cleared, met);
            && r.Next? && WorldInv(r.world) && r.world.classes == w.classes[p := classes]
            && (forall q: Port | q != p :: HeldAt(r.world, q) == HeldAt(w, q))
            && HeldAt(r.world, p) == if classes == {} then multiset{} else multiset(met)
  {
    assert PortInv(w, p);
    assert multiset(cleared) <= HeldAt(w, p) by {
      if p !in w.ports {
        NothingHeld();
      }
      RemoveAllExactly(PortOf(w, p), HeldAt(w, p), cleared);
    }
    ChangeClassesKeeps(w, p, classes, cleared, met);
  }

  /** Whatever succeeds keeps counters and reference counts consistent among themselves. */
  lemma StepKeepsInv(w: World, t: Tables, e: Event)
    requires WorldInv(w) && Enabled(w, t, e) && Step(w, t, e).Next?
    ensures WorldInv(Step(w, t, e).world)
  {
    match e
    case Change(id, now) => DeltaKeeps(w, id, Lookup(t, id), now);
    case NewClasses(p, classes, _, _, cleared, met) =>
      if classes != w.classes[p] {
        NewClassesHeld(w, p, classes, KeysIn(t, cleared), KeysIn(t, met));
      }
    case NewPort(p, classes) => LookupRuns.StepKeeps(w, PortAdded(p, classes));
    case GonePort(p, _) => LookupRuns.StepKeeps(w, PortRemoved(p));
    case GoneVlan(_) =>
  }

  lemma OtherPortsInStep(w: World, w': World, t: Tables, p: Port, place: Place)
    requires Tracks(w, t) && place.port != p && HasClasses(w', place.port)
    requires HasClasses(w, place.port) && HeldAt(w', place.port) == HeldAt(w, place.port)
    ensures InStep(w', t, place)
  {
    HoldersAre(w, t, place);
    HoldersAre(w', t, place);
    assert HeldAt(w, place.port)[place.key] == |Holders(w, t, place)|;
  }

  lemma NewClassesPlace(w: World, t: Tables, p: Port, vlans: set<nat>, met: seq<Id>, key: Key)
    requires Enumerates(met, OnPort(t, p, vlans)) && HasClasses(w, p) && HeldAt(w, p) == multiset(KeysIn(t, met))
    ensures InStep(w, t, Place(p, key)) <==>
            |Unresolved(t, vlans, Place(p, key))| == |Unvisited(t, vlans, Place(p, key))|
  {
    HoldersAre(w, t, Place(p, key));
    RepopulatedCount(t, p, vlans, met, key);
  }

  lemma NewClassesTracks(w: World, w': World, t: Tables, p: Port, classes: set<Class>, vlans: set<nat>, met: seq<Id>)
    requires Tracks(w, t) && Enumerates(met, OnPort(t, p, vlans)) && w'.classes == w.classes[p := classes]
    requires forall q: Port | q != p :: HeldAt(w', q) == HeldAt(w, q)
    requires classes != {} ==> HeldAt(w', p) == multiset(KeysIn(t, met))
    ensures Tracks(w', t) <==> (classes == {} || RepopulatesRight(t, p, vlans))
  {
    TracksIsInStep(w', t);
    forall place: Place | HasClasses(w', place.port) && place.port != p ensures InStep(w', t, place) {
      OtherPortsInStep(w, w', t, p, place);
    }
    if classes != {} {
      forall key: Key
        ensures InStep(w', t, Place(p, key)) <==>
                |Unresolved(t, vlans, Place(p, key))| == |Unvisited(t, vlans, Place(p, key))|
      {
        NewClassesPlace(w', t, p, vlans, met, key);
      }
      if Tracks(w', t) {
        assert forall key: Key :: InStep(w', t, Place(p, key));
      } else {
        var place: Place :| HasClasses(w', place.port) && !InStep(w', t, place);
        assert place == Place(p, place.key);
      }
    }
  }

  /** All entries at the place, on the VLANs. */
  function EntriesAt(t: Tables, vlans: set<nat>, place: Place): set<Id>
  {
    set id | id in t && t[id].port == Physical(place.port) && id.vlan in vlans
             && t[id].mac == place.key.mac && id.vlan == place.key.vlan
  }

  lemma EntriesAre(t: Tables, p: Port, vlans: set<nat>, key: Key)
    ensures WithKey(t, OnPort(t, p, vlans), key) == EntriesAt(t, vlans, Place(p, key))
  {
  }

  /** What a class-list change does when its clear is held: the port then holds every entry on it and
      its VLANs, resolved or not, or nothing if the list is empty; other ports are left alone. */
  lemma NewClassesMeets(w: World, t: Tables, e: Event, q: Port, key: Key)
    requires WorldInv(w) && Enabled(w, t, e) && e.NewClasses? && e.classes != w.classes[e.port]
    requires ClearIsHeld(w, t, e.port, e.oldVlans)
    ensures var r := Step(w, t, e);
            && r.Next? && r.world.classes == w.classes[e.port := e.classes]
            && HeldAt(r.world, q)[key] ==
               if q != e.port then HeldAt(w, q)[key]
               else if e.classes == {} then 0
               else |EntriesAt(t, e.newVlans, Place(q, key))|
  {
    var p, cleared, met := e.port, KeysIn(t, e.cleared), KeysIn(t, e.met);
    assert RemoveAll(PortOf(w, p), cleared).Running? by { ClearExactly(w, t, p, e.oldVlans, e.cleared); }
    NewClassesHeld(w, p, e.classes, cleared, met);
    assert multiset(met)[key] == |EntriesAt(t, e.newVlans, Place(p, key))| by {
      KeysCount(t, e.met, OnPort(t, p, e.newVlans), key);
      EntriesAre(t, p, e.newVlans, key);
    }
  }

  lemma NewClassesExactly(w: World, t: Tables, e: Event)
    requires WorldInv(w) && Tracks(w, t) && Enabled(w, t, e) && e.NewClasses?
    ensures (Step(w, t, e).Next? && Tracks(Step(w, t, e).world, t)) <==> SoundEvent(w, t, e)
  {
    var p, classes := e.port, e.classes;
    if classes != w.classes[p] {
      var cleared, met := KeysIn(t, e.cleared), KeysIn(t, e.met);
      ClearExactly(w, t, p, e.oldVlans, e.cleared);
      if RemoveAll(PortOf(w, p), cleared).Running? {
        NewClassesHeld(w, p, classes, cleared, met);
        NewClassesTracks(w, Step(w, t, e).world, t, p, classes, e.newVlans, e.met);
      }
    }
  }

  /** On a port that has classes already, the tables alone decide. */
  lemma NewClassesByTables(w: World, t: Tables, e: Event)
    requires WorldInv(w) && Tracks(w, t) && Enabled(w, t, e) && e.NewClasses? && HasClasses(w, e.port)
    ensures (Step(w, t, e).Next? && Tracks(Step(w, t, e).world, t)) <==>
            || e.classes == w.classes[e.port]
            || (ClearFits(t, e.port, e.oldVlans) && (e.classes == {} || RepopulatesRight(t, e.port, e.newVlans)))
  {
    NewClassesExactly(w, t, e);
    ClearOnTracked(w, t, e.port, e.oldVlans);
  }

  lemma NewPortExactly(w: World, t: Tables, e: Event)
    requires WorldInv(w) && Tracks(w, t) && Enabled(w, t, e) && e.NewPort?
    ensures Step(w, t, e).Next? && (Tracks(Step(w, t, e).world, t) <==> SoundEvent(w, t, e))
  {
    var p, classes := e.port, e.classes;
    var w' := Step(w, t, e).world;
    assert PortInv(w, p);
    TracksIsInStep(w', t);
    forall place: Place | HasClasses(w', place.port) && place.port != p ensures InStep(w', t, place) {
      OtherPortsInStep(w, w', t, p, place);
    }
    if classes != {} {
      forall place: Place | place.port == p ensures InStep(w', t, place) <==> ResolvedAt(t, place) == {} {
        HoldersAre(w', t, place);
      }
      if SoundEvent(w, t, e) {
        assert forall place: Place | place.port == p :: ResolvedAt(t, place) == {};
      } else {
        var id :| id in t && t[id].port == Physical(p) && Resolved(id, t[id]);
        assert id in ResolvedAt(t, Place(p, KeyOf(id, t[id])));
        assert !InStep(w', t, Place(p, KeyOf(id, t[id])));
      }
    }
  }

  lemma GonePortExactly(w: World, t: Tables, e: Event)
    requires WorldInv(w) && Tracks(w, t) && Enabled(w, t, e) && e.GonePort?
    ensures (Step(w, t, e).Next? && Tracks(Step(w, t, e).world, t)) <==> SoundEvent(w, t, e)
  {
    assert SoundEvent(w, t, e) <==> OnPort(t, e.port, e.vlans) == {} by {
      if SoundEvent(w, t, e) {
        assert forall id :: id !in OnPort(t, e.port, e.vlans);
      } else {
        var id :| id in t && id.vlan in e.vlans && t[id].port == Physical(e.port);
        assert id in OnPort(t, e.port, e.vlans);
      }
    }
    if SoundEvent(w, t, e) {
      var w' := Step(w, t, e).world;
      TracksIsInStep(w', t);
      forall place: Place | HasClasses(w', place.port) ensures InStep(w', t, place) {
        OtherPortsInStep(w, w', t, e.port, place);
      }
    }
  }

  lemma GoneVlanHolders(w: World, t: Tables, v: nat, place: Place)
    ensures Holders(w, After(t, GoneVlan(v)), place) == if place.key.vlan == v then {} else Holders(w, t, place)
  {
  }

  lemma GoneVlanExactly(w: World, t: Tables, v: nat)
    requires Tracks(w, t)
    ensures Tracks(w, After(t, GoneVlan(v))) <==> SoundEvent(w, t, GoneVlan(v))
  {
    var t' := After(t, GoneVlan(v));
    forall place: Place ensures Holders(w, t', place) == if place.key.vlan == v then {} else Holders(w, t, place) {
      GoneVlanHolders(w, t, v, place);
    }
    if SoundEvent(w, t, GoneVlan(v)) {
      forall place: Place | HasClasses(w, place.port)
        ensures HeldAt(w, place.port)[place.key] == |Holders(w, t', place)|
      {
        if place.key.vlan == v {
          assert Holders(w, t, place) == {};
        }
      }
    } else {
      var id :| id in t && id.vlan == v && Where(w, id, Some(t[id])).Some?;
      var place := Where(w, id, Some(t[id])).value;
      assert id in Holders(w, t, place);
      assert HeldAt(w, place.port)[place.key] == |Holders(w, t, place)| > 0;
    }
  }

  ghost predicate AllWellFormed(t: Tables)
  {
    forall id | id in t :: WellFormed(id, Some(t[id]))
  }

  /** From counts that agree with the tables, an event fails no CHECK and leaves them in agreement
      if and only if it is sound. */
  lemma EventExactly(w: World, t: Tables, e: Event)
    requires WorldInv(w) && Tracks(w, t) && AllWellFormed(t) && Enabled(w, t, e)
    ensures (Step(w, t, e).Next? && Tracks(Step(w, t, e).world, After(t, e))) <==> SoundEvent(w, t, e)
  {
    match e
    case Change(id, now) =>
      assert WellFormed(id, Lookup(t, id));
      DeltaExact(w, t, id, now);
      if Step(w, t, e).Next? {
        DeltaKeeps(w, id, Lookup(t, id), now);
      }
    case NewClasses(_, _, _, _, _, _) => NewClassesExactly(w, t, e);
    case NewPort(_, _) => NewPortExactly(w, t, e);
    case GonePort(_, _) => GonePortExactly(w, t, e);
    case GoneVlan(v) => GoneVlanExactly(w, t, v);
  }

  // ---- runs ----

  /** An updater boots, hears of every entry, and then follows the events. */
  ghost predicate Starts(w: World, t: Tables, w0: World, vlans: map<Port, set<nat>>,
                         orders: map<Port, seq<Id>>, order: seq<Id>)
  {
    && AllWellFormed(t) && BootedFrom(w0, t, vlans, orders) && Enumerates(order, t.Keys)
    && Announced(w0, t, order) == Next(w)
  }

  ghost predicate StepsTo(w: World, t: Tables, e: Event, w': World, t': Tables)
  {
    Enabled(w, t, e) && Step(w, t, e) == Next(w') && t' == After(t, e)
  }

  ghost predicate Runs(worlds: seq<World>, tables: seq<Tables>, events: seq<Event>)
  {
    && |worlds| == |tables| == |events| + 1 && AllWellFormed(tables[0])
    && forall i | 0 <= i < |events| ::
         StepsTo(worlds[i], tables[i], events[i], worlds[i + 1], tables[i + 1])
  }

  lemma {:induction false} RunKeepsInv(worlds: seq<World>, tables: seq<Tables>, events: seq<Event>, i: nat)
    requires Runs(worlds, tables, events) && i < |worlds| && WorldInv(worlds[0])
    ensures WorldInv(worlds[i]) && AllWellFormed(tables[i])
  {
    if i > 0 {
      RunKeepsInv(worlds, tables, events, i - 1);
      assert StepsTo(worlds[i - 1], tables[i - 1], events[i - 1], worlds[i], tables[i]);
      StepKeepsInv(worlds[i - 1], tables[i - 1], events[i - 1]);
    }
  }

  ghost predicate TracksAt(worlds: seq<World>, tables: seq<Tables>, i: nat)
  {
    i < |worlds| && i < |tables| && Tracks(worlds[i], tables[i])
  }

  ghost predicate SoundAt(worlds: seq<World>, tables: seq<Tables>, events: seq<Event>, i: nat)
  {
    && i < |worlds| && i < |tables| && i < |events| && Enabled(worlds[i], tables[i], events[i])
    && SoundEvent(worlds[i], tables[i], events[i])
  }

  lemma TracksOn(worlds: seq<World>, tables: seq<Tables>, events: seq<Event>, i: nat)
    requires Runs(worlds, tables, events) && WorldInv(worlds[0]) && i < |events| && TracksAt(worlds, tables, i)
    ensures TracksAt(worlds, tables, i + 1) <==> SoundAt(worlds, tables, events, i)
  {
    RunKeepsInv(worlds, tables, events, i);
    assert StepsTo(worlds[i], tables[i], events[i], worlds[i + 1], tables[i + 1]);
    EventExactly(worlds[i], tables[i], events[i]);
  }

  lemma {:induction false} SoundTracks(worlds: seq<World>, tables: seq<Tables>, events: seq<Event>, i: nat)
    requires Runs(worlds, tables, events) && WorldInv(worlds[0]) && TracksAt(worlds, tables, 0) && i < |worlds|
    requires forall j | 0 <= j < i :: SoundAt(worlds, tables, events, j)
    ensures TracksAt(worlds, tables, i)
  {
    if i > 0 {
      SoundTracks(worlds, tables, events, i - 1);
      TracksOn(worlds, tables, events, i - 1);
    }
  }

  /** Over every run from a boot, reference counts agree with the tables throughout if and only if
      the tables booted from are sound and so is every event. */
  lemma RunTracksExactly(w0: World, vlans: map<Port, set<nat>>, orders: map<Port, seq<Id>>, order: seq<Id>,
                         worlds: seq<World>, tables: seq<Tables>, events: seq<Event>)
    requires Runs(worlds, tables, events) && Starts(worlds[0], tables[0], w0, vlans, orders, order)
    ensures (forall i: nat | i < |worlds| :: TracksAt(worlds, tables, i)) <==>
            SoundStart(w0, tables[0], vlans) && (forall i: nat | i < |events| :: SoundAt(worlds, tables, events, i))
  {
    StartExactly(w0, tables[0], vlans, orders, order);
    if SoundStart(w0, tables[0], vlans) && (forall i: nat | i < |events| :: SoundAt(worlds, tables, events, i)) {
      forall i: nat | i < |worlds| ensures TracksAt(worlds, tables, i) {
        SoundTracks(worlds, tables, events, i);
      }
    } else if forall i: nat | i < |worlds| :: TracksAt(worlds, tables, i) {
      assert TracksAt(worlds, tables, 0);
      var i: nat :| i < |events| && !SoundAt(worlds, tables, events, i);
      TracksOn(worlds, tables, events, i);
    }
  }

  /** In such a run the reference count of each MAC and VLAN on each port with classes is the number
      of resolved entries there, and no CHECK fails on any sound event that comes next. */
  lemma RefCountsFollowTables(w0: World, vlans: map<Port, set<nat>>, orders: map<Port, seq<Id>>, order: seq<Id>,
                              worlds: seq<World>, tables: seq<Tables>, events: seq<Event>, i: nat, p: Port, key: Key)
    requires Runs(worlds, tables, events) && Starts(worlds[0], tables[0], w0, vlans, orders, order)
    requires SoundStart(w0, tables[0], vlans) && i < |worlds| && HasClasses(worlds[i], p)
    requires forall j: nat | j < i :: SoundAt(worlds, tables, events, j)
    ensures p in worlds[i].ports && RefCnt(worlds[i].ports[p], key) == |ResolvedAt(tables[i], Place(p, key))|
    ensures forall e | Enabled(worlds[i], tables[i], e) && SoundEvent(worlds[i], tables[i], e) ::
              Step(worlds[i], tables[i], e).Next?
  {
    var w, t := worlds[i], tables[i];
    StartExactly(w0, tables[0], vlans, orders, order);
    SoundTracks(worlds, tables, events, i);
    RunKeepsInv(worlds, tables, events, i);
    assert PortInv(w, p) && RefsMatch(w.ports[p], w.held[p]);
    HoldersAre(w, t, Place(p, key));
    assert HeldAt(w, Place(p, key).port)[key] == |Holders(w, t, Place(p, key))|;
    forall e | Enabled(w, t, e) && SoundEvent(w, t, e) ensures Step(w, t, e).Next? {
      EventExactly(w, t, e);
    }
  }

  // ---- what a class-list change can do ----

  /** A port that gets its first classes after an entry with a class resolved to it. */
  ghost predicate FirstClasses(w: World, t: Tables, p: Port, id: Id, e: Entry)
  {
    && w == World(map[], map[p := {}], map[]) && t == map[id := e] && e.port == Physical(p)
  }

  lemma Alone(w: World, t: Tables, p: Port, id: Id, e: Entry)
    requires FirstClasses(w, t, p, id, e)
    ensures WorldInv(w) && Tracks(w, t)
  {
  }

  /** From a state the counts agree with, such a change fails the CHECK of the clear. */
  lemma ClearFails(w: World, t: Tables, p: Port, id: Id, e: Entry, classes: set<Class>)
    requires FirstClasses(w, t, p, id, e) && e.classID.Some? && classes != {}
    ensures WorldInv(w) && Tracks(w, t)
    ensures var change := NewClasses(p, classes, {id.vlan}, {id.vlan}, [id], [id]);
            Enabled(w, t, change) && Step(w, t, change).CheckFailed?
  {
    Alone(w, t, p, id, e);
    var change := NewClasses(p, classes, {id.vlan}, {id.vlan}, [id], [id]);
    assert Enabled(w, t, change);
    ClearExactly(w, t, p, {id.vlan}, [id]);
    assert ClassedAt(t, {id.vlan}, Place(p, Key(e.mac, id.vlan))) == {id};
  }

  /** And an entry that is not resolved is counted by the repopulation. */
  lemma PendingIsCounted(w: World, t: Tables, p: Port, id: Id, e: Entry, classes: set<Class>)
    requires FirstClasses(w, t, p, id, e) && e.classID.None? && !Resolved(id, e) && classes != {}
    ensures var change := NewClasses(p, classes, {id.vlan}, {id.vlan}, [], [id]);
            && Enabled(w, t, change) && Step(w, t, change).Next?
            && HeldAt(Step(w, t, change).world, p)[Key(e.mac, id.vlan)] == 1
            && ResolvedAt(t, Place(p, Key(e.mac, id.vlan))) == {}
  {
    Alone(w, t, p, id, e);
    var change := NewClasses(p, classes, {id.vlan}, {id.vlan}, [], [id]);
    assert Enabled(w, t, change);
    assert RemoveAll(PortOf(w, p), []).Running? && KeysIn(t, []) == [];
    NewClassesHeld(w, p, classes, [], KeysIn(t, [id]));
    KeysCount(t, [id], {id}, KeyOf(id, e));
    assert WithKey(t, {id}, KeyOf(id, e)) == {id};
  }
}
