/** How changes of the MAC, ARP and NDP tables reach the class allocator, and which of them keep
    its reference counts in step with those tables. */
module LookupDeltas {
  import opened Wrappers
  import opened LookupClasses
  import opened LookupRuns

  datatype Kind = MacTable | NeighborTable

  datatype Id = Id(kind: Kind, vlan: nat, address: nat)

  datatype PortDescriptor = Physical(port: Port) | Aggregate(trunk: nat)

  datatype Entry = Entry(mac: nat, port: PortDescriptor, reachable: bool, classID: Option<Class>)

  type Tables = map<Id, Entry>

  function Lookup(t: Tables, id: Id): Option<Entry>
  {
    if id in t then Some(t[id]) else None
  }

  function Updated(t: Tables, id: Id, now: Option<Entry>): Tables
  {
    if now.Some? then t[id := now.value] else t - {id}
  }

  /** The MAC table is keyed by MAC. */
  predicate WellFormed(id: Id, e: Option<Entry>)
  {
    e.Some? && id.kind.MacTable? ==> e.value.mac == id.address
  }

  function KeyOf(id: Id, e: Entry): Key
  {
    Key(e.mac, id.vlan)
  }

  /** A MAC entry counts always, an ARP or NDP entry only when reachable. */
  predicate Resolved(id: Id, e: Entry)
  {
    id.kind.MacTable? || e.reachable
  }

  datatype Place = Place(port: Port, key: Key)

  /** Where an entry holds a class, if it does. */
  function Where(w: World, id: Id, e: Option<Entry>): Option<Place>
  {
    if e.Some? && e.value.port.Physical? && Resolved(id, e.value) && HasClasses(w, e.value.port.port) then
      Some(Place(e.value.port.port, Key(e.value.mac, id.vlan)))
    else None
  }

  ghost function AddEntry(w: World, id: Id, e: Entry): Result
    requires e.port.Physical?
  {
    AddTo(w, e.port.port, KeyOf(id, e))
  }

  function RemoveEntry(w: World, id: Id, e: Entry): Result
    requires e.port.Physical?
  {
    RemoveFrom(w, e.port.port, KeyOf(id, e))
  }

  ghost function MoveEntry(w: World, id: Id, was: Entry, now: Entry): Result
    requires was.port.Physical? && now.port.Physical?
  {
    var r := RemoveEntry(w, id, was);
    if r.CheckFailed? then r else AddEntry(r.world, id, now)
  }

  /** `processNeighborChanged`. */
  ghost function Changed(w: World, id: Id, was: Entry, now: Entry): Result
    requires was.port.Physical? && now.port.Physical?
  {
    if id.kind.MacTable? then
      if was.port != now.port then MoveEntry(w, id, was, now) else Next(w)
    else if !was.reachable && now.reachable then AddEntry(w, id, now)
    else if was.reachable && !now.reachable then RemoveEntry(w, id, was)
    else if was.reachable && now.reachable && (was.port != now.port || was.mac != now.mac) then
      MoveEntry(w, id, was, now)
    else Next(w)
  }

  /** Deltas that are not looked at: one side is not a physical port, or the new entry already
      carries a class. */
  predicate Skipped(was: Option<Entry>, now: Option<Entry>)
  {
    || (was.Some? && !was.value.port.Physical?) || (now.Some? && !now.value.port.Physical?)
    || (now.Some? && now.value.classID.Some?)
  }

  /** One iteration of `processNeighborUpdates`. */
  ghost function ProcessDelta(w: World, id: Id, was: Option<Entry>, now: Option<Entry>): Result
  {
    if Skipped(was, now) || (was.None? && now.None?) then Next(w)
    else if was.None? then
      if id.kind.MacTable? || now.value.reachable then AddEntry(w, id, now.value) else Next(w)
    else if now.None? then RemoveEntry(w, id, was.value)
    else Changed(w, id, was.value, now.value)
  }

  // ---- tracking ----

  function Holders(w: World, t: Tables, place: Place): set<Id>
  {
    set id | id in t && Where(w, id, Some(t[id])) == Some(place)
  }

  /** Every place is held as often as there are entries there. */
  ghost predicate Tracks(w: World, t: Tables)
  {
    forall place: Place | HasClasses(w, place.port) :: HeldAt(w, place.port)[place.key] == |Holders(w, t, place)|
  }

  /** What must hold of a delta: one that touches an aggregate port or whose new entry has a class
      leaves the entry where it was, and an entry that is deleted was resolved or on a port
      without classes. */
  predicate Sound(w: World, id: Id, was: Option<Entry>, now: Option<Entry>)
  {
    if (was.Some? && was.value.port.Aggregate?)
       || (now.Some? && (now.value.port.Aggregate? || now.value.classID.Some?)) then
      Where(w, id, was) == Where(w, id, now)
    else was.Some? && now.None? ==> Resolved(id, was.value) || !HasClasses(w, was.value.port.port)
  }

  function Here(a: Option<Place>, place: Place): nat
  {
    if a == Some(place) then 1 else 0
  }

  lemma HoldersBut(w: World, t: Tables, id: Id, place: Place)
    ensures |Holders(w, t, place)| == |Holders(w, t - {id}, place)| + Here(Where(w, id, Lookup(t, id)), place)
  {
    var others := Holders(w, t - {id}, place);
    if id in t && Where(w, id, Some(t[id])) == Some(place) {
      assert Holders(w, t, place) == others + {id};
    } else {
      assert Holders(w, t, place) == others;
    }
  }

  lemma HoldersStep(w: World, t: Tables, id: Id, now: Option<Entry>, place: Place)
    ensures |Holders(w, Updated(t, id, now), place)|
         == |Holders(w, t, place)| - Here(Where(w, id, Lookup(t, id)), place) + Here(Where(w, id, now), place)
  {
    var t' := Updated(t, id, now);
    assert t - {id} == t' - {id} && Lookup(t', id) == now;
    HoldersBut(w, t, id, place);
    HoldersBut(w, t', id, place);
  }

  lemma SameHolders(w: World, w': World, t: Tables, place: Place)
    requires w'.classes == w.classes
    ensures Holders(w', t, place) == Holders(w, t, place)
  {
  }

  /** Give up one place and take another. */
  ghost function Moved(w: World, a: Option<Place>, b: Option<Place>): Result
  {
    var r := if a.Some? then RemoveFrom(w, a.value.port, a.value.key) else Next(w);
    if r.CheckFailed? || b.None? then r else AddTo(r.world, b.value.port, b.value.key)
  }

  lemma SoundDelta(w: World, id: Id, was: Option<Entry>, now: Option<Entry>)
    requires WellFormed(id, was) && WellFormed(id, now) && Sound(w, id, was, now)
    ensures var a, b := Where(w, id, was), Where(w, id, now);
            ProcessDelta(w, id, was, now) == if a == b then Next(w) else Moved(w, a, b)
  {
    if !Skipped(was, now) && was.Some? && now.Some? {
      if id.kind.MacTable? {
        SoundMacChange(w, id, was.value, now.value);
      } else {
        SoundNeighborChange(w, id, was.value, now.value);
      }
    }
  }

  lemma SoundMacChange(w: World, id: Id, was: Entry, now: Entry)
    requires was.port.Physical? && now.port.Physical? && id.kind.MacTable? && was.mac == now.mac
    ensures var a, b := Where(w, id, Some(was)), Where(w, id, Some(now));
            Changed(w, id, was, now) == if a == b then Next(w) else Moved(w, a, b)
  {
  }

  lemma SoundNeighborChange(w: World, id: Id, was: Entry, now: Entry)
    requires was.port.Physical? && now.port.Physical? && id.kind.NeighborTable?
    ensures var a, b := Where(w, id, Some(was)), Where(w, id, Some(now));
            Changed(w, id, was, now) == if a == b then Next(w) else Moved(w, a, b)
  {
  }

  lemma RemoveHeld(w: World, p: Port, key: Key)
    requires HasClasses(w, p) && RemoveFrom(w, p, key).Next?
    ensures var w' := RemoveFrom(w, p, key).world;
            && w'.classes == w.classes
            && forall q: Port :: HeldAt(w', q) == if q == p then HeldAt(w, p) - multiset{key} else HeldAt(w, q)
  {
  }

  lemma AddHeld(w: World, p: Port, key: Key)
    requires HasClasses(w, p) && AddTo(w, p, key).Next?
    ensures var w' := AddTo(w, p, key).world;
            && w'.classes == w.classes
            && forall q: Port :: HeldAt(w', q) == if q == p then HeldAt(w, p) + multiset{key} else HeldAt(w, q)
  {
  }

  /** What an operation on one place does to how often another is held. */
  ghost predicate HeldShifts(w: World, w': World, minus: Option<Place>, plus: Option<Place>)
  {
    forall place: Place ::
      HeldAt(w', place.port)[place.key] == HeldAt(w, place.port)[place.key] - Here(minus, place) + Here(plus, place)
  }

  lemma GiveUp(w: World, a: Place)
    requires WorldInv(w) && HasClasses(w, a.port) && a.key in HeldAt(w, a.port)
    ensures var r := RemoveFrom(w, a.port, a.key);
            r.Next? && WorldInv(r.world) && r.world.classes == w.classes && HeldShifts(w, r.world, Some(a), None)
  {
    RemoveFromKeeps(w, a.port, a.key);
    RemoveHeld(w, a.port, a.key);
    assert (HeldAt(w, a.port) - multiset{a.key})[a.key] == HeldAt(w, a.port)[a.key] - 1;
  }

  lemma Take(w: World, b: Place)
    requires WorldInv(w) && HasClasses(w, b.port)
    ensures var r := AddTo(w, b.port, b.key);
            r.Next? && WorldInv(r.world) && r.world.classes == w.classes && HeldShifts(w, r.world, None, Some(b))
  {
    AddToKeeps(w, b.port, b.key);
    AddHeld(w, b.port, b.key);
  }

  lemma Shift(w: World, w1: World, w2: World, a: Option<Place>, b: Option<Place>)
    requires HeldShifts(w, w1, a, None) && HeldShifts(w1, w2, None, b)
    ensures HeldShifts(w, w2, a, b)
  {
  }

  lemma MovedHeld(w: World, a: Option<Place>, b: Option<Place>)
    requires WorldInv(w) && a != b
    requires a.Some? ==> HasClasses(w, a.value.port) && a.value.key in HeldAt(w, a.value.port)
    requires b.Some? ==> HasClasses(w, b.value.port)
    ensures var r := Moved(w, a, b);
            r.Next? && WorldInv(r.world) && r.world.classes == w.classes && HeldShifts(w, r.world, a, b)
  {
    var w1 := w;
    if a.Some? {
      GiveUp(w, a.value);
      w1 := RemoveFrom(w, a.value.port, a.value.key).world;
    }
    assert HeldShifts(w, w1, a, None);
    if b.Some? {
      Take(w1, b.value);
      Shift(w, w1, AddTo(w1, b.value.port, b.value.key).world, a, b);
    }
  }

  /** A sound delta succeeds and leaves the counts in step with the tables. */
  lemma SoundKeeps(w: World, t: Tables, id: Id, now: Option<Entry>)
    requires WorldInv(w) && Tracks(w, t) && WellFormed(id, Lookup(t, id)) && WellFormed(id, now)
    requires Sound(w, id, Lookup(t, id), now)
    ensures var r := ProcessDelta(w, id, Lookup(t, id), now);
            r.Next? && WorldInv(r.world) && r.world.classes == w.classes && Tracks(r.world, Updated(t, id, now))
  {
    SoundShifts(w, t, id, now);
    var w' := ProcessDelta(w, id, Lookup(t, id), now).world;
    forall place: Place | HasClasses(w', place.port)
      ensures HeldAt(w', place.port)[place.key] == |Holders(w', Updated(t, id, now), place)|
    {
      HoldersStep(w, t, id, now, place);
      SameHolders(w, w', Updated(t, id, now), place);
    }
  }

  /** An unsound delta fails a CHECK or leaves a count that is not the number of entries. */
  lemma UnsoundBreaks(w: World, t: Tables, id: Id, now: Option<Entry>)
    requires WorldInv(w) && Tracks(w, t) && !Sound(w, id, Lookup(t, id), now)
    ensures var r := ProcessDelta(w, id, Lookup(t, id), now); !(r.Next? && Tracks(r.world, Updated(t, id, now)))
  {
    var was := Lookup(t, id);
    var a, b := Where(w, id, was), Where(w, id, now);
    if Skipped(was, now) {
      var place := if a.Some? then a.value else b.value;
      HoldersStep(w, t, id, now, place);
    } else {
      var p, key := was.value.port.port, KeyOf(id, was.value);
      var r := RemoveFrom(w, p, key);
      if r.Next? {
        RemoveHeld(w, p, key);
        assert PortInv(w, p);
        RemoveFailsExactly(w.ports[p], w.held[p], key);
        HoldersStep(w, t, id, now, Place(p, key));
        SameHolders(w, r.world, Updated(t, id, now), Place(p, key));
      }
    }
  }

  /** Deleting an entry gives its place up, whether it was counted there or not. */
  lemma DeletedHeld(w: World, id: Id, was: Entry)
    requires WorldInv(w) && was.port.Physical?
    ensures var r, place := ProcessDelta(w, id, Some(was), None), Place(was.port.port, Key(was.mac, id.vlan));
            if !HasClasses(w, place.port) then r == Next(w)
            else if HeldAt(w, place.port)[place.key] == 0 then r.CheckFailed?
            else r.Next? && r.world.classes == w.classes && HeldShifts(w, r.world, Some(place), None)
  {
    var p, key := was.port.port, Key(was.mac, id.vlan);
    if HasClasses(w, p) {
      assert PortInv(w, p);
      RemoveFailsExactly(w.ports[p], w.held[p], key);
      if key in HeldAt(w, p) {
        GiveUp(w, Place(p, key));
      }
    }
  }

  /** What every delta does, by the entries alone. If an aggregate port is involved or the new entry
      has a class, nothing. If the entry is gone, its place is given up, and a CHECK fails exactly
      when nobody holds it. Otherwise one holder leaves the place of the old entry if it was
      resolved there and one comes to that of the new entry if it is. */
  lemma DeltaFollows(w: World, t: Tables, id: Id, now: Option<Entry>)
    requires WorldInv(w) && Tracks(w, t) && WellFormed(id, Lookup(t, id)) && WellFormed(id, now)
    ensures var was := Lookup(t, id);
            var r := ProcessDelta(w, id, was, now);
            if (was.Some? && was.value.port.Aggregate?)
               || (now.Some? && (now.value.port.Aggregate? || now.value.classID.Some?)) then
              r == Next(w)
            else if was.Some? && now.None? then
              var place := Place(was.value.port.port, Key(was.value.mac, id.vlan));
              if !HasClasses(w, place.port) then r == Next(w)
              else if HeldAt(w, place.port)[place.key] == 0 then r.CheckFailed?
              else r.Next? && r.world.classes == w.classes && HeldShifts(w, r.world, Some(place), None)
            else
              r.Next? && r.world.classes == w.classes && HeldShifts(w, r.world, Where(w, id, was), Where(w, id, now))
  {
    var was := Lookup(t, id);
    if !Skipped(was, now) {
      if was.Some? && now.None? {
        DeletedHeld(w, id, was.value);
      } else {
        SoundShifts(w, t, id, now);
      }
    }
  }

  lemma SoundShifts(w: World, t: Tables, id: Id, now: Option<Entry>)
    requires WorldInv(w) && Tracks(w, t) && WellFormed(id, Lookup(t, id)) && WellFormed(id, now)
    requires Sound(w, id, Lookup(t, id), now)
    ensures var r := ProcessDelta(w, id, Lookup(t, id), now);
            && r.Next? && WorldInv(r.world) && r.world.classes == w.classes
            && HeldShifts(w, r.world, Where(w, id, Lookup(t, id)), Where(w, id, now))
  {
    var a, b := Where(w, id, Lookup(t, id)), Where(w, id, now);
    SoundDelta(w, id, Lookup(t, id), now);
    if a.Some? {
      assert id in Holders(w, t, a.value);
    }
    if a != b {
      MovedHeld(w, a, b);
    }
  }

  /** Exactly the sound deltas are handled with no failing CHECK and leave every reference count
      equal to the number of resolved entries with that MAC, VLAN and port. */
  lemma DeltaExact(w: World, t: Tables, id: Id, now: Option<Entry>)
    requires WorldInv(w) && Tracks(w, t) && WellFormed(id, Lookup(t, id)) && WellFormed(id, now)
    ensures var r := ProcessDelta(w, id, Lookup(t, id), now);
            (r.Next? && WorldInv(r.world) && Tracks(r.world, Updated(t, id, now))) <==> Sound(w, id, Lookup(t, id), now)
  {
    if Sound(w, id, Lookup(t, id), now) {
      SoundKeeps(w, t, id, now);
    } else {
      UnsoundBreaks(w, t, id, now);
    }
  }

  /** What the skip rule costs: an entry that moves to another port in a delta that already carries
      a class is not followed, and deleting it later fails a CHECK when nothing else holds its
      MAC and VLAN there. */
  lemma SkippedMoveFails(w: World, t: Tables, id: Id, now: Entry)
    requires WorldInv(w) && Tracks(w, t) && id in t && t[id].port.Physical? && now.port.Physical?
    requires now.classID.Some? && HasClasses(w, now.port.port) && KeyOf(id, now) !in HeldAt(w, now.port.port)
    ensures ProcessDelta(w, id, Some(t[id]), Some(now)) == Next(w)
    ensures ProcessDelta(w, id, Some(now), None).CheckFailed?
  {
    var p := now.port.port;
    assert PortInv(w, p);
    RemoveFailsExactly(w.ports[p], w.held[p], KeyOf(id, now));
  }
}
