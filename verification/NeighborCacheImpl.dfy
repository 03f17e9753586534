/** The cache object: its map of entries and the closures it hands to the update queue. */
module NeighborCacheImpl {
  import opened Wrappers
  import opened NeighborEntry
  import opened NeighborCache
  import opened NeighborRuns
  import opened NeighborExpiry

  function Visited(order: seq<Address>): set<Address>
  {
    set ip | ip in order
  }

  /** Midway through `portDown`: `todo` is still to be looked at, `order` was made pending. */
  ghost predicate PortLoop(start: World, now: World, port: nat, todo: set<Address>, order: seq<Address>)
  {
    && todo <= start.cache.Keys && now.cache.Keys == start.cache.Keys
    && (forall ip | ip in todo :: now.cache[ip] == start.cache[ip])
    && Visited(order) == OnPort(start, port) - todo
    && now == AllPending(start, order)
  }

  lemma PortLoopStarts(w: World, port: nat)
    ensures PortLoop(w, w, port, w.cache.Keys, [])
  {
    assert OnPort(w, port) - w.cache.Keys == {};
  }

  lemma SetPendingElsewhere(w: World, ip: Address)
    requires ip in w.cache
    ensures SetPending(w, ip, true).cache.Keys == w.cache.Keys
    ensures forall other | other in w.cache && other != ip :: SetPending(w, ip, true).cache[other] == w.cache[other]
  {
  }

  lemma NextOnPort(start: World, now: World, next: World, port: nat,
                   todo: set<Address>, order: seq<Address>, ip: Address)
    requires PortLoop(start, now, port, todo, order) && ip in todo
    requires next == if now.cache[ip].fields.port == port then SetPending(now, ip, true) else now
    ensures PortLoop(start, next, port, todo - {ip}, if now.cache[ip].fields.port == port then order + [ip] else order)
  {
    if now.cache[ip].fields.port == port {
      SetPendingElsewhere(now, ip);
      assert (order + [ip])[..|order|] == order;
      assert Visited(order + [ip]) == Visited(order) + {ip};
    }
  }

  /** Midway through `repopulate`: all but `todo` are cached. */
  function RepopulatedBut(t: Table, intf: nat, maxProbes: nat, hit: Address -> bool, todo: set<Address>): World
  {
    var all := Repopulated(t, intf, maxProbes, hit);
    all.(cache := all.cache - todo)
  }

  lemma RepopulatedEnds(t: Table, intf: nat, maxProbes: nat, hit: Address -> bool)
    ensures RepopulatedBut(t, intf, maxProbes, hit, {}) == Repopulated(t, intf, maxProbes, hit)
    ensures RepopulatedBut(t, intf, maxProbes, hit, t.Keys) == World(map[], intf, maxProbes, t, [], [], {}, true)
  {
    var all := Repopulated(t, intf, maxProbes, hit);
    assert all.cache - {} == all.cache && all.cache - t.Keys == map[];
  }

  lemma RepopulatedNext(t: Table, intf: nat, maxProbes: nat, hit: Address -> bool, todo: set<Address>, ip: Address)
    requires ip in todo && ip in t
    ensures var w, s := RepopulatedBut(t, intf, maxProbes, hit, todo), if t[ip].pending then INCOMPLETE else STALE;
            RepopulatedBut(t, intf, maxProbes, hit, todo - {ip}) ==
            SetInternal(w, ip, t[ip], s, hit(ip), true).(probes := [])
  {
    var w, s := RepopulatedBut(t, intf, maxProbes, hit, todo), if t[ip].pending then INCOMPLETE else STALE;
    var all := Repopulated(t, intf, maxProbes, hit);
    assert all.cache - (todo - {ip}) == w.cache[ip := all.cache[ip]];
  }

  /** What a firing inherits from the runs. */
  lemma ProcessInherits(w: World, ip: Address, hit: bool)
    requires Enabled(w, Timer(ip, hit))
    ensures AllSound(w) ==>
              && (Step(w, Timer(ip, hit)).Running? <==> !Armed(w, ip))
              && (Step(w, Timer(ip, hit)).Running? ==> AllSound(Step(w, Timer(ip, hit)).world))
  {
    if AllSound(w) {
      LeftBehindExactly(w, Timer(ip, hit), ip);
      if Step(w, Timer(ip, hit)).Running? {
        assert StepsTo(w, Timer(ip, hit), Step(w, Timer(ip, hit)).world);
        StepSound(w, Timer(ip, hit), Step(w, Timer(ip, hit)).world);
      }
    }
  }

  class Cache {
    var entries: map<Address, CacheEntry>
    var intf: nat
    var maxProbes: nat
    var table: Table
    var queue: seq<Closure>
    var sent: seq<Probe>
    ghost var world: World

    /** The parts of the cache that are not entries. */
    ghost predicate Tracks()
      reads this
    {
      && world.intf == intf && world.maxProbes == maxProbes && world.table == table
      && world.queue == queue && world.probes == sent && world.cache.Keys == entries.Keys
    }

    ghost predicate Holds(ip: Address)
      requires ip in entries && ip in world.cache
      reads this, entries[ip]
    {
      && entries[ip].ip == ip && entries[ip].Value() == world.cache[ip]
    }

    ghost predicate Valid()
      reads this, entries.Values
    {
      Tracks() && forall ip | ip in entries :: Holds(ip)
    }

    constructor (intf: nat, maxProbes: nat, table: Table)
      ensures Valid() && fresh(entries.Values) && this.table == table
      ensures world == World(map[], intf, maxProbes, table, [], [], {}, true)
    {
      entries, queue, sent := map[], [], [];
      this.intf, this.maxProbes, this.table := intf, maxProbes, table;
      world := World(map[], intf, maxProbes, table, [], [], {}, true);
    }

    method RepopulateOne(ip: Address, hit: Address -> bool, ghost todo: set<Address>)
      requires Valid() && ip in todo && ip in table
      requires world.(probes := []) == RepopulatedBut(table, intf, maxProbes, hit, todo)
      modifies this, entries.Values
      ensures Valid() && fresh(entries.Values - old(entries.Values))
      ensures table == old(table) && intf == old(intf) && maxProbes == old(maxProbes)
      ensures world.(probes := []) == RepopulatedBut(table, intf, maxProbes, hit, todo - {ip})
    {
      RepopulatedNext(table, intf, maxProbes, hit, todo, ip);
      var s := if table[ip].pending then INCOMPLETE else STALE;
      var _ := SetEntryInternal(ip, table[ip], s, hit(ip), true);
    }

    method RepopulateRest(hit: Address -> bool, rest: set<Address>)
      requires Valid() && rest <= table.Keys
      requires world.(probes := []) == RepopulatedBut(table, intf, maxProbes, hit, rest)
      modifies this, entries.Values
      ensures Valid() && fresh(entries.Values - old(entries.Values))
      ensures table == old(table) && intf == old(intf) && maxProbes == old(maxProbes)
      ensures world.(probes := []) == RepopulatedBut(table, intf, maxProbes, hit, {})
    {
      var todo := rest;
      while todo != {}
        invariant Valid() && fresh(entries.Values - old(entries.Values)) && todo <= rest
        invariant table == old(table) && intf == old(intf) && maxProbes == old(maxProbes)
        invariant world.(probes := []) == RepopulatedBut(table, intf, maxProbes, hit, todo)
        decreases |todo|
      {
        var ip :| ip in todo;
        RepopulateOne(ip, hit, todo);
        todo := todo - {ip};
      }
    }

    /** `repopulate`, on a cache just constructed. */
    method Repopulate(hit: Address -> bool)
      requires Valid() && world == World(map[], intf, maxProbes, table, [], [], {}, true)
      modifies this, entries.Values
      ensures Valid() && fresh(entries.Values - old(entries.Values))
      ensures world.(probes := []) == Repopulated(old(table), old(intf), old(maxProbes), hit)
    {
      RepopulatedEnds(table, intf, maxProbes, hit);
      RepopulateRest(hit, table.Keys);
    }

    method AddEntry(ip: Address, fields: Fields, s: EntryState, hit: bool)
      requires Valid() && ip !in entries && Enterable(s)
      modifies this
      ensures Valid() && fresh(entries.Values - old(entries.Values))
      ensures world == Put(old(world), ip, NewEntry(ip, fields, s, old(maxProbes), hit))
    {
      var entry := new CacheEntry(ip, fields, maxProbes);
      var probes := entry.UpdateState(s, maxProbes, hit);
      entries := entries[ip := entry];
      sent := sent + probes;
      world := Put(world, ip, NewEntry(ip, fields, s, maxProbes, hit));
    }

    method EnterState(ip: Address, s: EntryState, hit: bool)
      requires Valid() && ip in entries && Enterable(s)
      modifies this, entries[ip]
      ensures Valid() && entries == old(entries)
      ensures world == Put(old(world), ip, Enter(ip, old(world).cache[ip], s, old(maxProbes), hit))
    {
      ghost var m := Enter(ip, world.cache[ip], s, maxProbes, hit);
      assert Holds(ip);
      var probes := entries[ip].UpdateState(s, maxProbes, hit);
      sent := sent + probes;
      world := Put(world, ip, m);
      assert forall other | other in entries && other != ip :: old(Holds(other));
    }

    method RefreshEntry(ip: Address, fields: Fields, s: EntryState, hit: bool) returns (changed: bool)
      requires Valid() && ip in entries && Enterable(s)
      modifies this, entries[ip]
      ensures Valid() && entries == old(entries)
      ensures world == SetInternal(old(world), ip, fields, s, hit, true)
      ensures changed == !FieldsMatch(old(world).cache[ip].fields, fields)
    {
      ghost var after := SetInternal(world, ip, fields, s, hit, true);
      assert Holds(ip);
      var probes;
      changed, probes := entries[ip].Refresh(fields, s, maxProbes, hit);
      sent := sent + probes;
      world := after;
      assert forall other | other in entries && other != ip :: old(Holds(other));
    }

    /** `setEntryInternal`: answers whether there is an entry to program. */
    method SetEntryInternal(ip: Address, fields: Fields, s: EntryState, hit: bool, add: bool) returns (answer: bool)
      requires Valid() && Enterable(s)
      modifies this, entries.Values
      ensures Valid() && fresh(entries.Values - old(entries.Values))
      ensures world == SetInternal(old(world), ip, fields, s, hit, add)
      ensures answer == Answers(old(world), ip, fields, add)
      ensures ip in old(entries) ==> entries == old(entries)
    {
      if ip in entries {
        answer := RefreshEntry(ip, fields, s, hit);
      } else {
        if add {
          AddEntry(ip, fields, s, hit);
        }
        answer := add;
      }
    }

    /** Hand a closure to the update queue. */
    method QueueUpdate(c: Closure, ghost damaged: set<Address>)
      requires Valid()
      modifies this`queue, this`world
      ensures Valid() && world == Queued(old(world), c).(damaged := damaged)
    {
      queue := queue + [c];
      world := Queued(world, c).(damaged := damaged);
      assert forall ip | ip in entries :: old(Holds(ip));
    }

    method SetResolved(ip: Address, mac: nat, port: nat, s: EntryState, hit: bool, add: bool)
      requires Valid() && Enterable(s)
      modifies this, entries.Values
      ensures Valid() && fresh(entries.Values - old(entries.Values))
      ensures world == SetEntry(old(world), ip, mac, port, s, hit, add)
    {
      var fields := Fields(mac, port, intf, false, None);
      var answer := SetEntryInternal(ip, fields, s, hit, add);
      if answer {
        QueueUpdate(Program(ip, fields), world.damaged - {ip});
      }
    }

    method SetPendingEntry(ip: Address, force: bool)
      requires Valid()
      modifies this, entries.Values
      ensures Valid() && fresh(entries.Values - old(entries.Values))
      ensures world == SetPending(old(world), ip, force)
      ensures ip in old(entries) ==> entries == old(entries)
    {
      if !force && ip in entries { return; }
      var answer := SetEntryInternal(ip, PendingFields(intf), INCOMPLETE, false, true);
      if answer {
        QueueUpdate(ProgramPending(ip, intf, force), world.damaged - {ip});
      }
    }

    method UpdateState(ip: Address, s: EntryState, hit: bool)
      requires Valid() && Enterable(s)
      modifies this, entries.Values
      ensures Valid() && entries == old(entries) && world == UpdateEntryState(old(world), ip, s, hit)
    {
      if ip in entries {
        EnterState(ip, s, hit);
      }
    }

    method UpdateEntryClassID(ip: Address, classID: Option<nat>)
      requires Valid()
      modifies this, entries.Values
      ensures Valid() && entries == old(entries) && world == UpdateClassID(old(world), ip, classID)
    {
      if ip in entries {
        assert Holds(ip);
        ghost var after := UpdateClassID(world, ip, classID);
        entries[ip].UpdateClassID(classID);
        queue := queue + [SetClass(ip, classID)];
        world := after;
        assert forall other | other in entries && other != ip :: old(Holds(other));
      }
    }

    method FlushEntry(ip: Address) returns (removed: bool)
      requires Valid()
      modifies this
      ensures Valid() && entries == old(entries) - {ip} && world == Flush(old(world), ip)
      ensures removed == (ip in old(entries))
    {
      if ip !in entries { return false; }
      entries := entries - {ip};
      queue := queue + [Remove(ip)];
      world := Flush(world, ip);
      assert forall other | other in entries :: old(Holds(other));
      return true;
    }

    method FireTimer(ip: Address, hit: bool) returns (ok: bool)
      requires Valid() && ip in entries
      modifies this, entries[ip]
      ensures ok == Runnable(old(world).cache[ip].state)
      ensures ok ==> Valid() && entries == old(entries)
      ensures ok ==> world == Put(old(world), ip, Fired(ip, old(world).cache[ip], hit))
    {
      assert Holds(ip);
      var probes;
      ok, probes := entries[ip].Process(hit);
      if ok {
        sent := sent + probes;
        world := Put(world, ip, Fired(ip, world.cache[ip], hit));
        assert forall other | other in entries && other != ip :: old(Holds(other));
      }
    }

    /** `processEntry`, when the timer of `ip` goes off; `ok` is false where the machine throws. */
    method ProcessTimer(ip: Address, hit: bool) returns (ok: bool)
      requires Valid() && Enabled(world, Timer(ip, hit))
      modifies this, entries.Values
      ensures ok == Step(old(world), Timer(ip, hit)).Running?
      ensures ok ==> Valid() && Running(world) == Step(old(world), Timer(ip, hit))
      ensures old(AllSound(world)) ==>
                (ok <==> !Armed(old(world), ip)) && (ok ==> AllSound(world))
    {
      assert Holds(ip);
      ProcessInherits(world, ip, hit);
      ok := FireTimer(ip, hit);
      if ok {
        assert Holds(ip);
        if entries[ip].state == EXPIRED {
          var _ := FlushEntry(ip);
        }
      }
    }

    method ReceivedSolicitation(ip: Address, mac: nat, port: nat, hit: bool)
      requires Valid()
      modifies this, entries.Values
      ensures Valid() && fresh(entries.Values - old(entries.Values))
      ensures world == Solicited(old(world), ip, mac, port, hit)
    {
      var same := false;
      if ip in entries {
        assert Holds(ip);
        same := entries[ip].fields.mac == mac && entries[ip].fields.port == port;
      }
      if !same {
        SetResolved(ip, mac, port, STALE, hit, true);
      }
    }

    method ReceivedAdvertisement(ip: Address, mac: nat, port: nat, override: bool, solicited: bool, hit: bool)
      requires Valid()
      modifies this, entries.Values
      ensures Valid() && fresh(entries.Values - old(entries.Values))
      ensures world == Advertised(old(world), ip, mac, port, override, solicited, hit)
    {
      var known, same, incomplete := ip in entries, false, false;
      if known {
        assert Holds(ip);
        same := entries[ip].fields.mac == mac && entries[ip].fields.port == port;
        incomplete := entries[ip].fields.pending;
      }
      if !known || incomplete || override {
        SetResolved(ip, mac, port, if solicited then REACHABLE else STALE, hit, true);
      } else if solicited {
        UpdateState(ip, if same then REACHABLE else STALE, hit);
      }
    }

    method VisitOnPort(ip: Address, port: nat) returns (visited: bool)
      requires Valid() && ip in entries
      modifies this, entries.Values
      ensures Valid() && entries == old(entries)
      ensures visited == (old(world).cache[ip].fields.port == port)
      ensures world == if visited then SetPending(old(world), ip, true) else old(world)
    {
      assert Holds(ip);
      visited := entries[ip].fields.port == port;
      if visited {
        SetPendingEntry(ip, true);
      }
    }

    /** `portDown`: `order` is the order in which the entries on the port were met. */
    method TakePortDown(port: nat) returns (ghost order: seq<Address>)
      requires Valid()
      modifies this, entries.Values
      ensures Valid() && entries == old(entries)
      ensures Visited(order) == OnPort(old(world), port)
      ensures world == AllPending(old(world), order)
    {
      var todo := entries.Keys;
      order := [];
      PortLoopStarts(world, port);
      while todo != {}
        invariant Valid() && entries == old(entries) && todo <= entries.Keys
        invariant PortLoop(old(world), world, port, todo, order)
        decreases |todo|
      {
        var ip :| ip in todo;
        ghost var before := world;
        var visited := VisitOnPort(ip, port);
        NextOnPort(old(world), before, world, port, todo, order, ip);
        todo := todo - {ip};
        if visited {
          order := order + [ip];
        }
      }
    }

    /** `timeoutsChanged`, as far as the number of probes goes. */
    method SetMaxNeighborProbes(n: nat)
      requires Valid()
      modifies this`maxProbes, this`world
      ensures Valid() && Running(world) == Step(old(world), SetMaxProbes(n))
    {
      maxProbes := n;
      world := world.(maxProbes := n);
      assert forall ip | ip in entries :: old(Holds(ip));
    }

    /** The update thread runs the next closure. */
    method RunNextClosure()
      requires Valid() && queue != []
      modifies this`table, this`queue, this`world
      ensures Valid() && Running(world) == Step(old(world), RunClosure)
    {
      world := Step(world, RunClosure).world;
      table := ApplyClosure(queue[0], table);
      queue := queue[1..];
      assert forall ip | ip in entries :: old(Holds(ip));
    }
  }
}
