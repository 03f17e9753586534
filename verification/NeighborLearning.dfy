/** What a cache knows about an address: exactly what it was last told. */
module NeighborLearning {
  import opened Wrappers
  import opened NeighborEntry
  import opened NeighborCache
  import opened NeighborRuns
  import opened NeighborExpiry

  /** Where an address is said to be; a pending one is at the broadcast address and port 0. */
  datatype News = News(mac: nat, port: nat, pending: bool)

  const NOWHERE := News(0xFFFF_FFFF_FFFF, 0, true)

  /** What an event says about `ip`, if anything: a request for an unknown address and the loss of
      its port make it pending; a message places it, an ARP message for others only if it is known,
      a solicitation only if it is not known there, an advertisement only if it overrides or the
      address is unknown or pending. */
  function Told(w: World, e: Event, ip: Address): Option<News>
  {
    match e
    case SentRequest(a) => if a == ip && ip !in w.cache then Some(NOWHERE) else None
    case ArpMine(a, mac, port) => if a == ip then Some(News(mac, port, false)) else None
    case ArpNotMine(a, mac, port) => if a == ip && ip in w.cache then Some(News(mac, port, false)) else None
    case Solicitation(a, mac, port, _) =>
      if a == ip && (ip in w.cache ==> w.cache[ip].fields.mac != mac || w.cache[ip].fields.port != port) then
        Some(News(mac, port, false))
      else None
    case Advertisement(a, mac, port, override, _, _) =>
      if a == ip && (ip !in w.cache || w.cache[ip].fields.pending || override) then Some(News(mac, port, false))
      else None
    case PortDown(port, _) => if ip in w.cache && w.cache[ip].fields.port == port then Some(NOWHERE) else None
    case _ => None
  }

  /** The entry shows what was told, on the interface of the time; its class stays if nothing else
      about it changed and is lost otherwise. */
  predicate Shows(w: World, ip: Address, news: News, f: Fields)
  {
    && f.mac == news.mac && f.port == news.port && f.pending == news.pending && f.intf == w.intf
    && f.classID == if ip in w.cache && SamePlace(w.cache[ip].fields, f) then w.cache[ip].fields.classID else None
  }

  predicate SamePlace(a: Fields, b: Fields)
  {
    a.mac == b.mac && a.port == b.port && a.intf == b.intf && a.pending == b.pending
  }

  /** Fields as the event leaves them. */
  predicate Learns(w: World, e: Event, ip: Address, w': World)
  {
    if Told(w, e, ip).Some? then ip in w'.cache && Shows(w, ip, Told(w, e, ip).value, w'.cache[ip].fields)
    else if e.ClassID? && e.ip == ip then
      && (ip in w'.cache <==> ip in w.cache)
      && (ip in w.cache ==> w'.cache[ip].fields == w.cache[ip].fields.(classID := e.classID))
    else ip in w'.cache ==> ip in w.cache && w'.cache[ip].fields == w.cache[ip].fields
  }

  // ---- every event ----

  lemma SetInternalShows(w: World, a: Address, f: Fields, s: EntryState, hit: bool, add: bool, ip: Address, w': World)
    requires Enterable(s) && f.intf == w.intf && f.classID == None
    requires w'.cache == SetInternal(w, a, f, s, hit, add).cache
    ensures if a == ip && (add || ip in w.cache) then
              ip in w'.cache && Shows(w, ip, News(f.mac, f.port, f.pending), w'.cache[ip].fields)
            else (ip in w'.cache <==> ip in w.cache) && (ip in w.cache ==> w'.cache[ip].fields == w.cache[ip].fields)
  {
    if a in w.cache {
      var e := w.cache[a];
      EntryFieldsKept(a, if FieldsMatch(e.fields, f) then e else e.(fields := f), s, w.maxProbes, hit);
    } else {
      EntryFieldsKept(a, Entry(f, UNINITIALIZED, Counter(w.maxProbes), false), s, w.maxProbes, hit);
    }
  }

  lemma SetEntryShows(w: World, a: Address, mac: nat, port: nat, s: EntryState, hit: bool, add: bool, ip: Address)
    requires Enterable(s)
    ensures var w' := SetEntry(w, a, mac, port, s, hit, add);
            if a == ip && (add || ip in w.cache) then
              ip in w'.cache && Shows(w, ip, News(mac, port, false), w'.cache[ip].fields)
            else (ip in w'.cache <==> ip in w.cache) && (ip in w.cache ==> w'.cache[ip].fields == w.cache[ip].fields)
  {
    SetInternalShows(w, a, Resolved(w, mac, port), s, hit, add, ip, SetEntry(w, a, mac, port, s, hit, add));
  }

  lemma SetPendingShows(w: World, a: Address, force: bool, ip: Address)
    ensures var w' := SetPending(w, a, force);
            && w'.intf == w.intf
            && if a == ip && (force || ip !in w.cache) then
                 ip in w'.cache && Shows(w, ip, NOWHERE, w'.cache[ip].fields)
               else (ip in w'.cache <==> ip in w.cache) && (ip in w.cache ==> w'.cache[ip].fields == w.cache[ip].fields)
  {
    if force || a !in w.cache {
      SetInternalShows(w, a, PendingFields(w.intf), INCOMPLETE, false, true, ip, SetPending(w, a, force));
    }
  }

  lemma {:induction false} AllPendingShows(w: World, ips: seq<Address>, ip: Address)
    ensures var w' := AllPending(w, ips);
            && w'.intf == w.intf
            && if ip in ips then ip in w'.cache && Shows(w, ip, NOWHERE, w'.cache[ip].fields)
               else (ip in w'.cache <==> ip in w.cache) && (ip in w.cache ==> w'.cache[ip].fields == w.cache[ip].fields)
  {
    if ips != [] {
      var before, last := ips[..|ips| - 1], ips[|ips| - 1];
      assert ips == before + [last];
      AllPendingShows(w, before, ip);
      SetPendingShows(AllPending(w, before), last, true, ip);
    }
  }

  lemma AdvertisedShows(w: World, e: Event, ip: Address, w': World)
    requires e.Advertisement? && w' == Advertised(w, e.ip, e.mac, e.port, e.override, e.solicited, e.hit)
    ensures Learns(w, e, ip, w')
  {
    if e.ip !in w.cache || w.cache[e.ip].fields.pending || e.override {
      SetEntryShows(w, e.ip, e.mac, e.port, if e.solicited then REACHABLE else STALE, e.hit, true, ip);
    } else if e.solicited {
      EntryFieldsKept(e.ip, w.cache[e.ip], REACHABLE, w.maxProbes, e.hit);
      EntryFieldsKept(e.ip, w.cache[e.ip], STALE, w.maxProbes, e.hit);
    }
  }

  lemma FiredShows(w: World, e: Event, ip: Address, w': World)
    requires e.Timer? && StepsTo(w, e, w')
    ensures Learns(w, e, ip, w')
  {
  }

  lemma SetShows(w: World, e: Event, ip: Address, w': World)
    requires StepsTo(w, e, w') && (e.SentRequest? || e.ArpMine? || e.ArpNotMine? || e.Solicitation?)
    ensures Learns(w, e, ip, w')
  {
    match e
    case SentRequest(a) => SetPendingShows(w, a, false, ip);
    case ArpMine(a, mac, port) => SetEntryShows(w, a, mac, port, REACHABLE, false, true, ip);
    case ArpNotMine(a, mac, port) => SetEntryShows(w, a, mac, port, REACHABLE, false, false, ip);
    case Solicitation(a, mac, port, hit) => SetEntryShows(w, a, mac, port, STALE, hit, true, ip);
  }

  /** Every event leaves in the cache, for every address, exactly what it tells of it, or what was
      there before. */
  lemma LearnsExactly(w: World, e: Event, w': World, ip: Address)
    requires StepsTo(w, e, w')
    ensures Learns(w, e, ip, w')
    ensures w'.intf == if e.SetIntf? then e.intf else w.intf
  {
    match e
    case Advertisement(_, _, _, _, _, _) => AdvertisedShows(w, e, ip, w');
    case PortDown(_, order) => AllPendingShows(w, order, ip);
    case Timer(_, _) => FiredShows(w, e, ip, w');
    case ClassID(_, _) =>
    case FlushRequest(_) =>
    case SetIntf(_) =>
    case SetMaxProbes(_) =>
    case RunClosure =>
    case _ => SetShows(w, e, ip, w');
  }

  // ---- what damages the table ----

  /** The class of a pending entry is set, for which the table then shows it reachable. */
  predicate Damages(w: World, e: Event, ip: Address)
  {
    e.ClassID? && e.ip == ip && ip in w.cache && w.cache[ip].fields.pending
  }

  /** An event changes where the entry is, which programs it anew. */
  predicate Replaces(w: World, ip: Address, w': World)
  {
    ip in w.cache && ip in w'.cache && !SamePlace(w.cache[ip].fields, w'.cache[ip].fields)
  }

  predicate DamagedAfter(w: World, e: Event, ip: Address, w': World)
  {
    ip in w'.damaged <==> ip in w'.cache && !Replaces(w, ip, w') && (Damages(w, e, ip) || ip in w.damaged)
  }

  ghost predicate DamagedCached(w: World)
  {
    forall ip | ip in w.damaged :: ip in w.cache
  }

  lemma SetInternalDamages(w: World, a: Address, f: Fields, s: EntryState, hit: bool, add: bool, ip: Address, w': World)
    requires Enterable(s) && DamagedCached(w) && w'.cache == SetInternal(w, a, f, s, hit, add).cache
    requires w'.damaged == if Answers(w, a, f, add) then w.damaged - {a} else w.damaged
    ensures ip in w'.damaged <==> ip in w'.cache && !Replaces(w, ip, w') && ip in w.damaged
  {
    if a in w.cache {
      var e := w.cache[a];
      EntryFieldsKept(a, if FieldsMatch(e.fields, f) then e else e.(fields := f), s, w.maxProbes, hit);
    }
  }

  lemma SetEntryDamages(w: World, a: Address, mac: nat, port: nat, s: EntryState, hit: bool, add: bool, ip: Address)
    requires Enterable(s) && DamagedCached(w)
    ensures var w' := SetEntry(w, a, mac, port, s, hit, add);
            ip in w'.damaged <==> ip in w'.cache && !Replaces(w, ip, w') && ip in w.damaged
  {
    SetInternalDamages(w, a, Resolved(w, mac, port), s, hit, add, ip, SetEntry(w, a, mac, port, s, hit, add));
  }

  lemma SetPendingDamages(w: World, a: Address, force: bool, ip: Address)
    requires DamagedCached(w)
    ensures var w' := SetPending(w, a, force);
            ip in w'.damaged <==> ip in w'.cache && !Replaces(w, ip, w') && ip in w.damaged
  {
    if force || a !in w.cache {
      SetInternalDamages(w, a, PendingFields(w.intf), INCOMPLETE, false, true, ip, SetPending(w, a, force));
    }
  }

  /** Making entries pending twice does no more than once. */
  lemma {:induction false} AllPendingDamages(w: World, ips: seq<Address>, ip: Address)
    requires DamagedCached(w)
    ensures var w' := AllPending(w, ips);
            ip in w'.damaged <==> ip in w'.cache && !Replaces(w, ip, w') && ip in w.damaged
  {
    if ips != [] {
      var before, last := ips[..|ips| - 1], ips[|ips| - 1];
      var w1 := AllPending(w, before);
      AllPendingDamages(w, before, ip);
      forall other | other in w1.damaged ensures other in w1.cache {
        AllPendingDamages(w, before, other);
      }
      SetPendingDamages(w1, last, true, ip);
      PendingOnce(w, before, last, ip);
    }
  }

  lemma PendingOnce(w: World, before: seq<Address>, last: Address, ip: Address)
    ensures var w1 := AllPending(w, before);
            var w2 := SetPending(w1, last, true);
            ip in w.cache ==>
              && ip in w1.cache && ip in w2.cache
              && (Replaces(w, ip, w2) <==> Replaces(w, ip, w1) || Replaces(w1, ip, w2))
  {
    AllPendingShows(w, before, ip);
    SetPendingShows(AllPending(w, before), last, true, ip);
  }

  lemma AdvertisedDamages(w: World, e: Event, ip: Address, w': World)
    requires e.Advertisement? && DamagedCached(w)
    requires w' == Advertised(w, e.ip, e.mac, e.port, e.override, e.solicited, e.hit)
    ensures DamagedAfter(w, e, ip, w')
  {
    if e.ip !in w.cache || w.cache[e.ip].fields.pending || e.override {
      SetEntryDamages(w, e.ip, e.mac, e.port, if e.solicited then REACHABLE else STALE, e.hit, true, ip);
    } else if e.solicited {
      EntryFieldsKept(e.ip, w.cache[e.ip], REACHABLE, w.maxProbes, e.hit);
      EntryFieldsKept(e.ip, w.cache[e.ip], STALE, w.maxProbes, e.hit);
    }
  }

  lemma FiredDamages(w: World, e: Event, ip: Address, w': World)
    requires e.Timer? && StepsTo(w, e, w') && DamagedCached(w)
    ensures DamagedAfter(w, e, ip, w')
  {
  }

  lemma SetDamages(w: World, e: Event, ip: Address, w': World)
    requires StepsTo(w, e, w') && (e.SentRequest? || e.ArpMine? || e.ArpNotMine? || e.Solicitation?) && DamagedCached(w)
    ensures DamagedAfter(w, e, ip, w')
  {
    match e
    case SentRequest(a) => SetPendingDamages(w, a, false, ip);
    case ArpMine(a, mac, port) => SetEntryDamages(w, a, mac, port, REACHABLE, false, true, ip);
    case ArpNotMine(a, mac, port) => SetEntryDamages(w, a, mac, port, REACHABLE, false, false, ip);
    case Solicitation(a, mac, port, hit) => SetEntryDamages(w, a, mac, port, STALE, hit, true, ip);
  }

  /** Exactly which addresses an event leaves damaged: those whose class it sets while they are
      pending and those that were damaged, unless it removes them or changes where they are. */
  lemma DamagesExactly(w: World, e: Event, w': World, ip: Address)
    requires StepsTo(w, e, w') && Agrees(w)
    ensures DamagedAfter(w, e, ip, w')
  {
    assert DamagedCached(w) by {
      forall a | a in w.damaged ensures a in w.cache {
        assert AgreesAt(a, w, Final(w));
      }
    }
    match e
    case Advertisement(_, _, _, _, _, _) => AdvertisedDamages(w, e, ip, w');
    case PortDown(_, order) => AllPendingDamages(w, order, ip);
    case Timer(_, _) => FiredDamages(w, e, ip, w');
    case ClassID(_, _) =>
    case FlushRequest(_) =>
    case SetIntf(_) =>
    case SetMaxProbes(_) =>
    case RunClosure =>
    case _ => SetDamages(w, e, ip, w');
  }

  // ---- runs ----

  /** What the run last told of `ip`, and on which interface: at boot what the table says. */
  function LastTold(worlds: seq<World>, events: seq<Event>, ip: Address, i: nat): Option<(News, nat)>
    requires i < |worlds| == |events| + 1
  {
    if i == 0 then
      if ip !in worlds[0].table then None
      else
        var f := worlds[0].table[ip];
        Some((News(f.mac, f.port, f.pending), f.intf))
    else
      var news := Told(worlds[i - 1], events[i - 1], ip);
      if news.Some? then Some((news.value, worlds[i - 1].intf)) else LastTold(worlds, events, ip, i - 1)
  }

  predicate ShownAs(f: Fields, told: Option<(News, nat)>)
  {
    && told.Some? && f.mac == told.value.0.mac && f.port == told.value.0.port
    && f.pending == told.value.0.pending && f.intf == told.value.1
  }

  lemma {:induction false} CacheShowsLastTold(worlds: seq<World>, events: seq<Event>, i: nat, ip: Address)
    requires IsRun(worlds, events) && i < |worlds| && ip in worlds[i].cache
    ensures ShownAs(worlds[i].cache[ip].fields, LastTold(worlds, events, ip, i))
  {
    if i == 0 {
      var hit :| BootsFrom(worlds[0], hit);
      BootShows(worlds[0], hit, ip);
    } else {
      StepAt(worlds, events, i);
      LearnsExactly(worlds[i - 1], events[i - 1], worlds[i], ip);
      if Told(worlds[i - 1], events[i - 1], ip).None? {
        CacheShowsLastTold(worlds, events, i - 1, ip);
      }
    }
  }

  lemma BootShows(w: World, hit: Address -> bool, ip: Address)
    requires BootsFrom(w, hit) && ip in w.cache
    ensures ip in w.table && w.cache[ip].fields == w.table[ip]
  {
    EntryFieldsKept(ip, Entry(w.table[ip], UNINITIALIZED, Counter(w.maxProbes), false),
                    if w.table[ip].pending then INCOMPLETE else STALE, w.maxProbes, hit(ip));
  }

  /** The class of `ip` was set while it was pending, and since then the entry was neither removed
      nor changed as to where it is. */
  predicate Damaged(worlds: seq<World>, events: seq<Event>, ip: Address, i: nat)
    requires i < |worlds| == |events| + 1
  {
    && i > 0 && ip in worlds[i].cache && !Replaces(worlds[i - 1], ip, worlds[i])
    && (Damages(worlds[i - 1], events[i - 1], ip) || Damaged(worlds, events, ip, i - 1))
  }

  lemma {:induction false} DamagedIs(worlds: seq<World>, events: seq<Event>, ip: Address, i: nat)
    requires IsRun(worlds, events) && i < |worlds|
    ensures ip in worlds[i].damaged <==> Damaged(worlds, events, ip, i)
  {
    if i == 0 {
      var hit :| BootsFrom(worlds[0], hit);
    } else {
      DamagedIs(worlds, events, ip, i - 1);
      RunAgrees(worlds, events, i - 1);
      StepAt(worlds, events, i);
      DamagesExactly(worlds[i - 1], events[i - 1], worlds[i], ip);
    }
  }

  /** In every run an address in the cache is shown there as it was last told; and so it is in the
      table, once all queued closures have run, exactly unless it is damaged. */
  lemma TableShowsLastTold(worlds: seq<World>, events: seq<Event>, i: nat, ip: Address)
    requires IsRun(worlds, events) && i < |worlds| && ip in worlds[i].cache
    ensures var told := LastTold(worlds, events, ip, i);
            && ShownAs(worlds[i].cache[ip].fields, told) && ip in Final(worlds[i])
            && (ShownAs(Final(worlds[i])[ip], told) <==> !Damaged(worlds, events, ip, i))
  {
    DamagedIs(worlds, events, ip, i);
    CacheShowsLastTold(worlds, events, i, ip);
    TableMatchesCache(worlds, events, i, ip);
  }
}
