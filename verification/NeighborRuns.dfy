/** What every run of a neighbor cache keeps. */
module NeighborRuns {
  import opened Wrappers
  import opened NeighborEntry
  import opened NeighborCache

  lemma StepAt(worlds: seq<World>, events: seq<Event>, i: nat)
    requires IsRun(worlds, events) && 0 < i < |worlds|
    ensures StepsTo(worlds[i - 1], events[i - 1], worlds[i])
  {
    var k := i - 1;
    assert StepsTo(worlds[k], events[k], worlds[k + 1]);
  }

  // ---- closures ----

  lemma {:induction false} DrainedPop(t: Table, queue: seq<Closure>)
    requires queue != []
    ensures Drained(ApplyClosure(queue[0], t), queue[1..]) == Drained(t, queue)
  {
    if |queue| == 1 {
      assert queue[..0] == [] && queue[1..] == [];
    } else {
      var before := queue[..|queue| - 1];
      DrainedPop(t, before);
      assert queue[1..][..|queue| - 2] == before[1..];
    }
  }

  lemma DrainedPush(t: Table, queue: seq<Closure>, c: Closure)
    ensures Drained(t, queue + [c]) == ApplyClosure(c, Drained(t, queue))
  {
    assert (queue + [c])[..|queue|] == queue;
  }

  /** A closure touches its own address only. */
  predicate SameAt(ip: Address, t: Table, t': Table)
  {
    (ip in t <==> ip in t') && (ip in t ==> t[ip] == t'[ip])
  }

  lemma ClosureLocal(c: Closure, t: Table, ip: Address)
    requires ip != c.ip
    ensures SameAt(ip, t, ApplyClosure(c, t))
  {
  }

  function Final(w: World): Table
  {
    Drained(w.table, w.queue)
  }

  // ---- agreement of the table with the cache ----

  /** At an undamaged address table and cache show the same MAC, port, interface and pending or
      not, and the same class as long as no class was ever set on a pending entry; at a damaged
      one the cache is pending and the table shows the same entry reachable. */
  predicate AgreesAt(ip: Address, w: World, t: Table)
  {
    && (ip in w.cache <==> ip in t)
    && (ip in w.damaged ==> !w.clean && ip in w.cache && w.cache[ip].fields.pending)
    && (ip in w.cache ==>
          FieldsMatch(t[ip], if ip in w.damaged then Updated(w.cache[ip].fields) else w.cache[ip].fields))
    && (ip in w.cache && w.clean ==> t[ip].classID == w.cache[ip].fields.classID)
  }

  ghost predicate Agrees(w: World)
  {
    forall ip: Address :: AgreesAt(ip, w, Final(w))
  }

  /** An operation on one address that queues at most one closure for it. */
  ghost predicate OnlyAt(ip: Address, w: World, w': World)
  {
    && w'.table == w.table && (w'.clean ==> w.clean)
    && (w'.queue == w.queue || exists c: Closure :: c.ip == ip && w'.queue == w.queue + [c])
    && (forall other: Address | other != ip ::
          && (other in w.cache <==> other in w'.cache) && (other in w.cache ==> w.cache[other] == w'.cache[other])
          && (other in w.damaged <==> other in w'.damaged))
  }

  lemma FinalOnlyAt(ip: Address, w: World, w': World, other: Address)
    requires OnlyAt(ip, w, w') && other != ip
    ensures SameAt(other, Final(w), Final(w'))
  {
    if w'.queue != w.queue {
      var c: Closure :| c.ip == ip && w'.queue == w.queue + [c];
      DrainedPush(w.table, w.queue, c);
      ClosureLocal(c, Final(w), other);
    }
  }

  lemma OneAddress(ip: Address, w: World, w': World)
    requires Agrees(w) && OnlyAt(ip, w, w') && AgreesAt(ip, w', Final(w'))
    ensures Agrees(w')
  {
    forall other: Address ensures AgreesAt(other, w', Final(w')) {
      if other != ip {
        FinalOnlyAt(ip, w, w', other);
        assert AgreesAt(other, w, Final(w));
      }
    }
  }

  lemma EntryFieldsKept(ip: Address, e: Entry, s: EntryState, maxProbes: nat, hit: bool)
    requires Enterable(s)
    ensures Enter(ip, e, s, maxProbes, hit).entry.fields == e.fields
  {
  }

  lemma SetInternalAt(w: World, ip: Address, f: Fields, s: EntryState, hit: bool, add: bool)
    requires Enterable(s)
    ensures var w' := SetInternal(w, ip, f, s, hit, add);
            && w'.table == w.table && w'.queue == w.queue && w'.damaged == w.damaged && w'.clean == w.clean
            && w'.intf == w.intf
            && (ip in w'.cache <==> ip in w.cache || add)
            && (ip in w'.cache ==>
                  w'.cache[ip].fields == if Answers(w, ip, f, add) then f else w.cache[ip].fields)
    ensures OnlyAt(ip, w, SetInternal(w, ip, f, s, hit, add))
  {
  }

  lemma SetEntryAgrees(w: World, ip: Address, mac: nat, port: nat, s: EntryState, hit: bool, add: bool)
    requires Agrees(w) && Enterable(s)
    ensures Agrees(SetEntry(w, ip, mac, port, s, hit, add))
  {
    var f := Resolved(w, mac, port);
    var w1, w' := SetInternal(w, ip, f, s, hit, add), SetEntry(w, ip, mac, port, s, hit, add);
    SetInternalAt(w, ip, f, s, hit, add);
    assert AgreesAt(ip, w, Final(w));
    if Answers(w, ip, f, add) {
      assert w'.queue == w.queue + [Program(ip, f)] && Program(ip, f).ip == ip;
      DrainedPush(w.table, w.queue, Program(ip, f));
    }
    assert OnlyAt(ip, w, w');
    OneAddress(ip, w, w');
  }

  lemma SetPendingAgrees(w: World, ip: Address, force: bool)
    requires Agrees(w)
    ensures Agrees(SetPending(w, ip, force))
  {
    if force || ip !in w.cache {
      var f := PendingFields(w.intf);
      var w' := SetPending(w, ip, force);
      SetInternalAt(w, ip, f, INCOMPLETE, false, true);
      assert AgreesAt(ip, w, Final(w));
      if Answers(w, ip, f, true) {
        var c := ProgramPending(ip, w.intf, force);
        assert w'.queue == w.queue + [c] && c.ip == ip;
        DrainedPush(w.table, w.queue, c);
      }
      assert OnlyAt(ip, w, w');
      OneAddress(ip, w, w');
    }
  }

  lemma UpdateEntryStateAgrees(w: World, ip: Address, s: EntryState, hit: bool)
    requires Agrees(w) && Enterable(s)
    ensures Agrees(UpdateEntryState(w, ip, s, hit))
  {
    if ip in w.cache {
      EntryFieldsKept(ip, w.cache[ip], s, w.maxProbes, hit);
      assert AgreesAt(ip, w, Final(w));
      OneAddress(ip, w, UpdateEntryState(w, ip, s, hit));
    }
  }

  lemma UpdateClassIDAgrees(w: World, ip: Address, classID: Option<nat>)
    requires Agrees(w)
    ensures Agrees(UpdateClassID(w, ip, classID))
  {
    if ip in w.cache {
      var w', c := UpdateClassID(w, ip, classID), SetClass(ip, classID);
      assert w'.queue == w.queue + [c] && c.ip == ip;
      DrainedPush(w.table, w.queue, c);
      assert AgreesAt(ip, w, Final(w));
      OneAddress(ip, w, w');
    }
  }

  lemma FlushAgrees(w: World, ip: Address)
    requires Agrees(w)
    ensures Agrees(Flush(w, ip))
  {
    if ip in w.cache {
      var w' := Flush(w, ip);
      assert w'.queue == w.queue + [Remove(ip)] && Remove(ip).ip == ip;
      DrainedPush(w.table, w.queue, Remove(ip));
      assert AgreesAt(ip, w, Final(w));
      OneAddress(ip, w, w');
    }
  }

  lemma ProcessEntryAgrees(w: World, ip: Address, hit: bool)
    requires Agrees(w) && ip in w.cache && Runnable(w.cache[ip].state)
    ensures Agrees(ProcessEntry(w, ip, hit))
  {
    var w1 := Put(w, ip, Fired(ip, w.cache[ip], hit));
    assert w1.cache[ip].fields == w.cache[ip].fields;
    assert AgreesAt(ip, w, Final(w));
    OneAddress(ip, w, w1);
    FlushAgrees(w1, ip);
  }

  lemma {:induction false} AllPendingAgrees(w: World, ips: seq<Address>)
    requires Agrees(w)
    ensures Agrees(AllPending(w, ips))
  {
    if ips != [] {
      AllPendingAgrees(w, ips[..|ips| - 1]);
      SetPendingAgrees(AllPending(w, ips[..|ips| - 1]), ips[|ips| - 1], true);
    }
  }

  lemma RunClosureAgrees(w: World, w': World)
    requires Agrees(w) && w.queue != []
    requires w' == w.(table := ApplyClosure(w.queue[0], w.table), queue := w.queue[1..])
    ensures Agrees(w')
  {
    DrainedPop(w.table, w.queue);
    forall ip: Address ensures AgreesAt(ip, w', Final(w')) {
      assert AgreesAt(ip, w, Final(w));
    }
  }

  lemma SameAgrees(w: World, w': World)
    requires Agrees(w) && w'.cache == w.cache && w'.table == w.table && w'.queue == w.queue && w'.damaged == w.damaged
    requires w'.clean == w.clean
    ensures Agrees(w')
  {
    forall ip: Address ensures AgreesAt(ip, w', Final(w')) {
      assert AgreesAt(ip, w, Final(w));
    }
  }

  lemma StepAgrees(w: World, e: Event, w': World)
    requires Agrees(w) && StepsTo(w, e, w')
    ensures Agrees(w')
  {
    match e
    case SentRequest(ip) => SetPendingAgrees(w, ip, false);
    case ArpMine(ip, mac, port) => SetEntryAgrees(w, ip, mac, port, REACHABLE, false, true);
    case ArpNotMine(ip, mac, port) => SetEntryAgrees(w, ip, mac, port, REACHABLE, false, false);
    case Solicitation(ip, mac, port, hit) => SetEntryAgrees(w, ip, mac, port, STALE, hit, true);
    case Advertisement(ip, mac, port, override, solicited, hit) =>
      SetEntryAgrees(w, ip, mac, port, if solicited then REACHABLE else STALE, hit, true);
      UpdateEntryStateAgrees(w, ip, REACHABLE, hit);
      UpdateEntryStateAgrees(w, ip, STALE, hit);
    case ClassID(ip, classID) => UpdateClassIDAgrees(w, ip, classID);
    case PortDown(_, order) => AllPendingAgrees(w, order);
    case FlushRequest(ip) => FlushAgrees(w, ip);
    case Timer(ip, hit) => ProcessEntryAgrees(w, ip, hit);
    case SetIntf(_) => SameAgrees(w, w');
    case SetMaxProbes(_) => SameAgrees(w, w');
    case RunClosure => RunClosureAgrees(w, w');
  }

  lemma RepopulatedAgrees(t: Table, intf: nat, maxProbes: nat, hit: Address -> bool)
    ensures Agrees(Repopulated(t, intf, maxProbes, hit))
  {
    var w := Repopulated(t, intf, maxProbes, hit);
    forall ip: Address ensures AgreesAt(ip, w, Final(w)) {
    }
  }

  lemma {:induction false} RunAgrees(worlds: seq<World>, events: seq<Event>, i: nat)
    requires IsRun(worlds, events) && i < |worlds|
    ensures Agrees(worlds[i])
  {
    if i == 0 {
      var hit :| BootsFrom(worlds[0], hit);
      RepopulatedAgrees(worlds[0].table, worlds[0].intf, worlds[0].maxProbes, hit);
    } else {
      RunAgrees(worlds, events, i - 1);
      StepAt(worlds, events, i);
      StepAgrees(worlds[i - 1], events[i - 1], worlds[i]);
    }
  }

  /** At any point of any run, running all queued closures gives the cache's addresses, and for
      each the cache's MAC, port, interface and pending or not, exactly unless its class was set
      while it was pending and it was not programmed since. */
  lemma TableMatchesCache(worlds: seq<World>, events: seq<Event>, i: nat, ip: Address)
    requires IsRun(worlds, events) && i < |worlds|
    ensures ip in Final(worlds[i]) <==> ip in worlds[i].cache
    ensures ip in worlds[i].cache ==>
              (FieldsMatch(Final(worlds[i])[ip], worlds[i].cache[ip].fields) <==> ip !in worlds[i].damaged)
  {
    RunAgrees(worlds, events, i);
    assert AgreesAt(ip, worlds[i], Final(worlds[i]));
  }

  /** As long as no class was set on a pending entry, the table ends up with the very fields of
      the cache, the class included. */
  lemma TableEqualsCache(worlds: seq<World>, events: seq<Event>, i: nat)
    requires IsRun(worlds, events) && i < |worlds| && worlds[i].clean
    ensures Final(worlds[i]) == map ip | ip in worlds[i].cache :: worlds[i].cache[ip].fields
  {
    RunAgrees(worlds, events, i);
    var w := worlds[i];
    assert forall ip: Address :: AgreesAt(ip, w, Final(w));
    assert Final(w).Keys == w.cache.Keys by {
      assert forall ip: Address :: AgreesAt(ip, w, Final(w)) ==> (ip in Final(w) <==> ip in w.cache);
    }
    forall ip | ip in w.cache ensures Final(w)[ip] == w.cache[ip].fields {
      assert AgreesAt(ip, w, Final(w));
    }
  }

  /** Setting the class of an entry that is being resolved makes the table show it resolved, at
      the broadcast address and port 0. */
  lemma PendingShownReachable(intf: nat, maxProbes: nat, ip: Address, classID: Option<nat>)
    returns (worlds: seq<World>, events: seq<Event>)
    ensures IsRun(worlds, events)
    ensures var w := worlds[|events|];
            && ip in w.cache && w.cache[ip].fields.pending
            && ip in Final(w) && Final(w)[ip] == Fields(BROADCAST, 0, intf, false, classID)
  {
    var hit: Address -> bool := _ => false;
    var w0 := Repopulated(map[], intf, maxProbes, hit);
    var w1 := SetPending(w0, ip, false);
    var w2 := UpdateClassID(w1, ip, classID);
    worlds, events := [w0, w1, w2], [SentRequest(ip), ClassID(ip, classID)];
    assert BootsFrom(worlds[0], hit);
    DrainedPush(w0.table, [], ProgramPending(ip, intf, false));
    assert w1.queue == [] + [ProgramPending(ip, intf, false)];
    DrainedPush(w0.table, w1.queue, SetClass(ip, classID));
  }

  // ---- entries ----

  ghost predicate AllSound(w: World)
  {
    forall ip | ip in w.cache :: Sound(w.cache[ip])
  }

  lemma SetInternalSound(w: World, ip: Address, f: Fields, s: EntryState, hit: bool, add: bool)
    requires AllSound(w) && Enterable(s) && (s == INCOMPLETE <==> f.pending)
    ensures AllSound(SetInternal(w, ip, f, s, hit, add))
  {
    if ip in w.cache {
      var e := w.cache[ip];
      EnterLives(ip, if FieldsMatch(e.fields, f) then e else e.(fields := f), s, w.maxProbes, hit);
    } else {
      EnterLives(ip, Entry(f, UNINITIALIZED, Counter(w.maxProbes), false), s, w.maxProbes, hit);
    }
  }

  lemma {:induction false} AllPendingSound(w: World, ips: seq<Address>)
    requires AllSound(w)
    ensures AllSound(AllPending(w, ips))
  {
    if ips != [] {
      var w1 := AllPending(w, ips[..|ips| - 1]);
      AllPendingSound(w, ips[..|ips| - 1]);
      SetInternalSound(w1, ips[|ips| - 1], PendingFields(w1.intf), INCOMPLETE, false, true);
    }
  }

  lemma UpdateEntryStateSound(w: World, ip: Address, s: EntryState, hit: bool)
    requires AllSound(w) && Enterable(s) && (ip in w.cache ==> (s == INCOMPLETE <==> w.cache[ip].fields.pending))
    ensures AllSound(UpdateEntryState(w, ip, s, hit))
  {
    if ip in w.cache {
      EnterLives(ip, w.cache[ip], s, w.maxProbes, hit);
    }
  }

  lemma AdvertisedSound(w: World, ip: Address, mac: nat, port: nat, override: bool, solicited: bool, hit: bool)
    requires AllSound(w)
    ensures AllSound(Advertised(w, ip, mac, port, override, solicited, hit))
  {
    if ip !in w.cache || w.cache[ip].fields.pending || override {
      SetInternalSound(w, ip, Resolved(w, mac, port), if solicited then REACHABLE else STALE, hit, true);
    } else if solicited {
      UpdateEntryStateSound(w, ip, REACHABLE, hit);
      UpdateEntryStateSound(w, ip, STALE, hit);
    }
  }

  lemma ProcessEntrySound(w: World, ip: Address, hit: bool)
    requires AllSound(w) && ip in w.cache && Runnable(w.cache[ip].state)
    ensures AllSound(ProcessEntry(w, ip, hit))
  {
    FiredLives(ip, w.cache[ip], hit);
  }

  lemma StepSound(w: World, e: Event, w': World)
    requires AllSound(w) && StepsTo(w, e, w')
    ensures AllSound(w')
  {
    match e
    case SentRequest(ip) => SetInternalSound(w, ip, PendingFields(w.intf), INCOMPLETE, false, true);
    case ArpMine(ip, mac, port) => SetInternalSound(w, ip, Resolved(w, mac, port), REACHABLE, false, true);
    case ArpNotMine(ip, mac, port) => SetInternalSound(w, ip, Resolved(w, mac, port), REACHABLE, false, false);
    case Solicitation(ip, mac, port, hit) => SetInternalSound(w, ip, Resolved(w, mac, port), STALE, hit, true);
    case Advertisement(ip, mac, port, override, solicited, hit) =>
      AdvertisedSound(w, ip, mac, port, override, solicited, hit);
    case ClassID(ip, classID) =>
    case PortDown(_, order) => AllPendingSound(w, order);
    case FlushRequest(ip) =>
    case Timer(ip, hit) => ProcessEntrySound(w, ip, hit);
    case SetIntf(_) =>
    case SetMaxProbes(_) =>
    case RunClosure =>
  }

  lemma RepopulatedSound(t: Table, intf: nat, maxProbes: nat, hit: Address -> bool)
    ensures AllSound(Repopulated(t, intf, maxProbes, hit))
  {
    forall ip | ip in t ensures Sound(Repopulated(t, intf, maxProbes, hit).cache[ip]) {
      EnterLives(ip, Entry(t[ip], UNINITIALIZED, Counter(maxProbes), false),
                 if t[ip].pending then INCOMPLETE else STALE, maxProbes, hit(ip));
    }
  }

  /** In every run an entry is live or EXPIRED. */
  lemma {:induction false} RunSound(worlds: seq<World>, events: seq<Event>, i: nat)
    requires IsRun(worlds, events) && i < |worlds|
    ensures AllSound(worlds[i])
  {
    if i == 0 {
      var hit :| BootsFrom(worlds[0], hit);
      RepopulatedSound(worlds[0].table, worlds[0].intf, worlds[0].maxProbes, hit);
    } else {
      RunSound(worlds, events, i - 1);
      StepAt(worlds, events, i);
      StepSound(worlds[i - 1], events[i - 1], worlds[i]);
    }
  }

  // ---- probes ----

  predicate ProbeResolved(p: Probe, w: World)
  {
    p.Unicast? ==>
      && p.ip in w.cache && !w.cache[p.ip].fields.pending
      && p.mac == w.cache[p.ip].fields.mac && p.port == w.cache[p.ip].fields.port
  }

  /** What a step adds to the log of probes. */
  ghost predicate NewProbesResolved(w: World, w': World)
  {
    && |w.probes| <= |w'.probes|
    && forall k | |w.probes| <= k < |w'.probes| :: ProbeResolved(w'.probes[k], w')
  }

  lemma PutProbes(w: World, ip: Address, m: Moved, w': World)
    requires ProbesResolved(ip, m) && w'.probes == w.probes + m.probes
    requires m.probes != [] ==> ip in w'.cache && w'.cache[ip].fields == m.entry.fields
    ensures NewProbesResolved(w, w')
  {
    forall k | |w.probes| <= k < |w'.probes| ensures ProbeResolved(w'.probes[k], w') {
      assert w'.probes[k] == m.probes[k - |w.probes|];
    }
  }

  lemma SetInternalProbes(w: World, ip: Address, f: Fields, s: EntryState, hit: bool, add: bool, w': World)
    requires Enterable(s) && (s == INCOMPLETE <==> f.pending)
    requires w'.cache == SetInternal(w, ip, f, s, hit, add).cache
    requires w'.probes == SetInternal(w, ip, f, s, hit, add).probes
    ensures NewProbesResolved(w, w') && (s == INCOMPLETE ==> w'.probes == w.probes)
  {
    if ip in w.cache {
      var e := w.cache[ip];
      var kept := if FieldsMatch(e.fields, f) then e else e.(fields := f);
      EnterLives(ip, kept, s, w.maxProbes, hit);
      PutProbes(w, ip, Enter(ip, kept, s, w.maxProbes, hit), w');
    } else if add {
      EnterLives(ip, Entry(f, UNINITIALIZED, Counter(w.maxProbes), false), s, w.maxProbes, hit);
      PutProbes(w, ip, NewEntry(ip, f, s, w.maxProbes, hit), w');
    }
  }

  lemma {:induction false} AllPendingProbes(w: World, ips: seq<Address>)
    ensures AllPending(w, ips).probes == w.probes
  {
    if ips != [] {
      var w1, ip := AllPending(w, ips[..|ips| - 1]), ips[|ips| - 1];
      AllPendingProbes(w, ips[..|ips| - 1]);
      SetInternalProbes(w1, ip, PendingFields(w1.intf), INCOMPLETE, false, true, SetPending(w1, ip, true));
    }
  }

  lemma AdvertisedProbes(w: World, ip: Address, mac: nat, port: nat, override: bool, solicited: bool, hit: bool)
    requires AllSound(w)
    ensures NewProbesResolved(w, Advertised(w, ip, mac, port, override, solicited, hit))
  {
    var w' := Advertised(w, ip, mac, port, override, solicited, hit);
    if ip !in w.cache || w.cache[ip].fields.pending || override {
      SetInternalProbes(w, ip, Resolved(w, mac, port), if solicited then REACHABLE else STALE, hit, true, w');
    } else if solicited {
      var same := w.cache[ip].fields.mac == mac && w.cache[ip].fields.port == port;
      var s := if same then REACHABLE else STALE;
      EnterLives(ip, w.cache[ip], s, w.maxProbes, hit);
      PutProbes(w, ip, Enter(ip, w.cache[ip], s, w.maxProbes, hit), w');
    }
  }

  lemma ProcessEntryProbes(w: World, ip: Address, hit: bool)
    requires AllSound(w) && ip in w.cache && Runnable(w.cache[ip].state)
    ensures NewProbesResolved(w, ProcessEntry(w, ip, hit))
  {
    FiredLives(ip, w.cache[ip], hit);
    PutProbes(w, ip, Fired(ip, w.cache[ip], hit), ProcessEntry(w, ip, hit));
  }

  lemma StepProbes(w: World, e: Event, w': World)
    requires AllSound(w) && StepsTo(w, e, w')
    ensures NewProbesResolved(w, w')
  {
    match e
    case SentRequest(ip) =>
      SetInternalProbes(w, ip, PendingFields(w.intf), INCOMPLETE, false, true, SetPending(w, ip, true));
    case ArpMine(ip, mac, port) => SetInternalProbes(w, ip, Resolved(w, mac, port), REACHABLE, false, true, w');
    case ArpNotMine(ip, mac, port) => SetInternalProbes(w, ip, Resolved(w, mac, port), REACHABLE, false, false, w');
    case Solicitation(ip, mac, port, hit) =>
      SetInternalProbes(w, ip, Resolved(w, mac, port), STALE, hit, true, SetEntry(w, ip, mac, port, STALE, hit, true));
    case Advertisement(ip, mac, port, override, solicited, hit) =>
      AdvertisedProbes(w, ip, mac, port, override, solicited, hit);
    case ClassID(ip, classID) =>
    case PortDown(_, order) => AllPendingProbes(w, order);
    case FlushRequest(ip) =>
    case Timer(ip, hit) => ProcessEntryProbes(w, ip, hit);
    case SetIntf(_) =>
    case SetMaxProbes(_) =>
    case RunClosure =>
  }

  /** Every unicast probe a run sends goes to the MAC and port of an entry that is resolved. */
  lemma UnicastProbesResolved(worlds: seq<World>, events: seq<Event>, i: nat, k: nat)
    requires IsRun(worlds, events) && i < |events|
    requires |worlds[i].probes| <= k < |worlds[i + 1].probes|
    ensures ProbeResolved(worlds[i + 1].probes[k], worlds[i + 1])
  {
    RunSound(worlds, events, i);
    StepAt(worlds, events, i + 1);
    StepProbes(worlds[i], events[i], worlds[i + 1]);
  }
}
