/** What becomes of one entry in a run: when it is probed and removed, and when it is left behind. */
module NeighborExpiry {
  import opened Wrappers
  import opened NeighborEntry
  import opened NeighborCache
  import opened NeighborRuns

  // ---- what an event does to one entry ----

  datatype Entering = Entering(state: EntryState, hit: bool)

  /** The state an event puts `ip` in from outside, if it does, and the hit bit read then. */
  function Entered(w: World, e: Event, ip: Address): Option<Entering>
  {
    match e
    case SentRequest(a) => if a == ip && ip !in w.cache then Some(Entering(INCOMPLETE, false)) else None
    case ArpMine(a, _, _) => if a == ip then Some(Entering(REACHABLE, false)) else None
    case ArpNotMine(a, _, _) => if a == ip && ip in w.cache then Some(Entering(REACHABLE, false)) else None
    case Solicitation(a, mac, port, hit) =>
      if a == ip && !ShownAt(w, ip, mac, port) then Some(Entering(STALE, hit)) else None
    case Advertisement(a, mac, port, override, solicited, hit) =>
      if a != ip then None
      else if ip !in w.cache || w.cache[ip].fields.pending || override then
        Some(Entering(if solicited then REACHABLE else STALE, hit))
      else if solicited then Some(Entering(if ShownAt(w, ip, mac, port) then REACHABLE else STALE, hit))
      else None
    case PortDown(_, order) => if ip in order then Some(Entering(INCOMPLETE, false)) else None
    case _ => None
  }

  predicate ShownAt(w: World, ip: Address, mac: nat, port: nat)
  {
    ip in w.cache && w.cache[ip].fields.mac == mac && w.cache[ip].fields.port == port
  }

  predicate TimerSet(w: World, ip: Address)
  {
    ip in w.cache && w.cache[ip].scheduled
  }

  /** An entry just put in a state; `timer` says whether its timer was set before. */
  predicate EnteredAs(e: Entry, how: Entering, maxProbes: nat, timer: bool)
  {
    if how.state == STALE && how.hit then
      if Counter(maxProbes) == 0 then e.state == EXPIRED && e.scheduled == timer
      else e.state == PROBE && e.probesLeft == Counter(maxProbes) - 1
    else
      && e.state == how.state
      && e.probesLeft == Counter(if how.state == INCOMPLETE then maxProbes - 1 else maxProbes)
  }

  predicate SameButClass(e: Entry, e': Entry)
  {
    e' == e.(fields := e.fields.(classID := e'.fields.classID))
  }

  /** What an event makes of the entry of `ip`. */
  predicate Follows(w: World, e: Event, ip: Address, w': World)
  {
    if Entered(w, e, ip).Some? then
      ip in w'.cache && EnteredAs(w'.cache[ip], Entered(w, e, ip).value, w.maxProbes, TimerSet(w, ip))
    else if e.Timer? && e.ip == ip then
      && ip in w.cache && Runnable(w.cache[ip].state)
      && var now := Fired(ip, w.cache[ip], e.hit).entry;
         if now.state == EXPIRED then ip !in w'.cache else ip in w'.cache && w'.cache[ip] == now
    else if e == FlushRequest(ip) then ip !in w'.cache
    else (ip in w'.cache <==> ip in w.cache) && (ip in w.cache ==> SameButClass(w.cache[ip], w'.cache[ip]))
  }

  /** `ip` was put in a state, or is as it was. */
  predicate PutIn(w: World, w': World, ip: Address, how: Option<Entering>)
  {
    && w'.maxProbes == w.maxProbes
    && if how.Some? then ip in w'.cache && EnteredAs(w'.cache[ip], how.value, w.maxProbes, TimerSet(w, ip))
       else (ip in w'.cache <==> ip in w.cache) && (ip in w.cache ==> w'.cache[ip] == w.cache[ip])
  }

  lemma PutInFollows(w: World, e: Event, ip: Address, w': World)
    requires PutIn(w, w', ip, Entered(w, e, ip)) && !e.Timer? && !e.FlushRequest?
    ensures Follows(w, e, ip, w')
  {
  }

  lemma EnterAs(ip: Address, e: Entry, s: EntryState, maxProbes: nat, hit: bool)
    requires Enterable(s)
    ensures EnteredAs(Enter(ip, e, s, maxProbes, hit).entry, Entering(s, hit), maxProbes, e.scheduled)
  {
  }

  lemma SetInternalPuts(w: World, a: Address, f: Fields, s: EntryState, hit: bool, add: bool, ip: Address, w': World)
    requires Enterable(s) && w'.cache == SetInternal(w, a, f, s, hit, add).cache && w'.maxProbes == w.maxProbes
    ensures PutIn(w, w', ip, if a == ip && (add || ip in w.cache) then Some(Entering(s, hit)) else None)
  {
    if a in w.cache {
      var e := w.cache[a];
      EnterAs(a, if FieldsMatch(e.fields, f) then e else e.(fields := f), s, w.maxProbes, hit);
    } else {
      EnterAs(a, Entry(f, UNINITIALIZED, Counter(w.maxProbes), false), s, w.maxProbes, hit);
    }
  }

  lemma SetEntryPuts(w: World, a: Address, mac: nat, port: nat, s: EntryState, hit: bool, add: bool, ip: Address)
    requires Enterable(s)
    ensures PutIn(w, SetEntry(w, a, mac, port, s, hit, add), ip,
                  if a == ip && (add || ip in w.cache) then Some(Entering(s, hit)) else None)
  {
    SetInternalPuts(w, a, Resolved(w, mac, port), s, hit, add, ip, SetEntry(w, a, mac, port, s, hit, add));
  }

  lemma SetPendingPuts(w: World, a: Address, force: bool, ip: Address)
    ensures PutIn(w, SetPending(w, a, force), ip,
                  if a == ip && (force || ip !in w.cache) then Some(Entering(INCOMPLETE, false)) else None)
  {
    if force || a !in w.cache {
      SetInternalPuts(w, a, PendingFields(w.intf), INCOMPLETE, false, true, ip, SetPending(w, a, force));
    }
  }

  lemma {:induction false} AllPendingPuts(w: World, ips: seq<Address>, ip: Address)
    ensures PutIn(w, AllPending(w, ips), ip, if ip in ips then Some(Entering(INCOMPLETE, false)) else None)
  {
    if ips != [] {
      var before, last := ips[..|ips| - 1], ips[|ips| - 1];
      assert ips == before + [last];
      AllPendingPuts(w, before, ip);
      SetPendingPuts(AllPending(w, before), last, true, ip);
    }
  }

  lemma UpdateEntryStatePuts(w: World, a: Address, s: EntryState, hit: bool, ip: Address)
    requires Enterable(s) && a in w.cache
    ensures PutIn(w, UpdateEntryState(w, a, s, hit), ip, if a == ip then Some(Entering(s, hit)) else None)
  {
    EnterAs(a, w.cache[a], s, w.maxProbes, hit);
  }

  lemma SolicitedPuts(w: World, e: Event, ip: Address)
    requires e.Solicitation?
    ensures PutIn(w, Solicited(w, e.ip, e.mac, e.port, e.hit), ip, Entered(w, e, ip))
  {
    if !ShownAt(w, e.ip, e.mac, e.port) {
      SetEntryPuts(w, e.ip, e.mac, e.port, STALE, e.hit, true, ip);
    }
  }

  lemma AdvertisedPuts(w: World, e: Event, ip: Address)
    requires e.Advertisement?
    ensures PutIn(w, Advertised(w, e.ip, e.mac, e.port, e.override, e.solicited, e.hit), ip, Entered(w, e, ip))
  {
    if e.ip !in w.cache || w.cache[e.ip].fields.pending || e.override {
      SetEntryPuts(w, e.ip, e.mac, e.port, if e.solicited then REACHABLE else STALE, e.hit, true, ip);
    } else if e.solicited {
      UpdateEntryStatePuts(w, e.ip, if ShownAt(w, e.ip, e.mac, e.port) then REACHABLE else STALE, e.hit, ip);
    }
  }

  /** The operations that put entries in a state. */
  lemma StepPuts(w: World, e: Event, w': World, ip: Address)
    requires StepsTo(w, e, w')
    requires e.SentRequest? || e.ArpMine? || e.ArpNotMine? || e.Solicitation? || e.Advertisement? || e.PortDown?
    ensures PutIn(w, w', ip, Entered(w, e, ip))
  {
    match e
    case SentRequest(a) => SetPendingPuts(w, a, false, ip);
    case ArpMine(a, mac, port) => SetEntryPuts(w, a, mac, port, REACHABLE, false, true, ip);
    case ArpNotMine(a, mac, port) => SetEntryPuts(w, a, mac, port, REACHABLE, false, false, ip);
    case Solicitation(_, _, _, _) => SolicitedPuts(w, e, ip);
    case Advertisement(_, _, _, _, _, _) => AdvertisedPuts(w, e, ip);
    case PortDown(_, order) => AllPendingPuts(w, order, ip);
  }

  lemma TimerFollows(w: World, e: Event, w': World, ip: Address)
    requires StepsTo(w, e, w') && e.Timer?
    ensures Follows(w, e, ip, w') && w'.maxProbes == w.maxProbes
  {
  }

  lemma StepFollows(w: World, e: Event, w': World, ip: Address)
    requires StepsTo(w, e, w')
    ensures Follows(w, e, ip, w') && (!e.SetMaxProbes? ==> w'.maxProbes == w.maxProbes)
  {
    match e
    case Timer(_, _) => TimerFollows(w, e, w', ip);
    case ClassID(_, _) =>
    case FlushRequest(_) =>
    case SetIntf(_) =>
    case SetMaxProbes(_) =>
    case RunClosure =>
    case _ =>
      StepPuts(w, e, w', ip);
      PutInFollows(w, e, ip, w');
  }

  // ---- entries that are left behind ----

  /** An event makes an entry expire on the spot: it is put in STALE and is hit, and its counter
      starts at zero. */
  predicate ExpiresAtOnce(w: World, e: Event, ip: Address)
  {
    Entered(w, e, ip) == Some(Entering(STALE, true)) && Counter(w.maxProbes) == 0
  }

  predicate LeftBehind(w: World, ip: Address)
  {
    ip in w.cache && !Live(w.cache[ip])
  }

  /** An EXPIRED entry whose timer is still set. */
  predicate Armed(w: World, ip: Address)
  {
    LeftBehind(w, ip) && w.cache[ip].scheduled
  }

  /** Nothing puts the entry in another state or removes it. */
  predicate Leaves(w: World, e: Event, ip: Address)
  {
    Entered(w, e, ip) == None && e != FlushRequest(ip)
  }

  /** An event raises an error exactly when it is the timer of an entry left behind. Otherwise it
      leaves an entry behind exactly when it makes it expire at once or finds it so and leaves it,
      and with its timer set exactly when the timer was set before. */
  lemma LeftBehindExactly(w: World, e: Event, ip: Address)
    requires AllSound(w) && Enabled(w, e)
    ensures Step(w, e).Raised? <==> e.Timer? && Armed(w, e.ip)
    ensures Step(w, e).Running? ==>
              var w' := Step(w, e).world;
              && (LeftBehind(w', ip) <==> ExpiresAtOnce(w, e, ip) || (LeftBehind(w, ip) && Leaves(w, e, ip)))
              && (Armed(w', ip) <==> TimerSet(w, ip) && LeftBehind(w', ip))
  {
    if Step(w, e).Running? {
      var w' := Step(w, e).world;
      assert StepsTo(w, e, w');
      StepFollows(w, e, w', ip);
      StepSound(w, e, w');
    }
  }

  predicate LeftAtBoot(w: World, hit: Address -> bool, ip: Address)
  {
    ip in w.table && !w.table[ip].pending && hit(ip) && Counter(w.maxProbes) == 0
  }

  lemma LeftBehindAfter(w: World, e: Event, w': World, ip: Address)
    requires AllSound(w) && StepsTo(w, e, w')
    ensures LeftBehind(w', ip) <==> ExpiresAtOnce(w, e, ip) || (LeftBehind(w, ip) && Leaves(w, e, ip))
    ensures Armed(w', ip) <==> TimerSet(w, ip) && LeftBehind(w', ip)
  {
    LeftBehindExactly(w, e, ip);
  }

  lemma BootExactly(w: World, hit: Address -> bool, ip: Address)
    requires BootsFrom(w, hit)
    ensures (LeftBehind(w, ip) <==> LeftAtBoot(w, hit, ip)) && !Armed(w, ip)
  {
    if ip in w.table {
      EnterLives(ip, Entry(w.table[ip], UNINITIALIZED, Counter(w.maxProbes), false),
                 if w.table[ip].pending then INCOMPLETE else STALE, w.maxProbes, hit(ip));
    }
  }

  lemma BootsUnarmed(worlds: seq<World>, events: seq<Event>, ip: Address)
    requires IsRun(worlds, events)
    ensures !Armed(worlds[0], ip)
  {
    var hit :| BootsFrom(worlds[0], hit);
    BootExactly(worlds[0], hit, ip);
  }

  predicate LeftBehindAt(worlds: seq<World>, i: nat, ip: Address)
  {
    i < |worlds| && LeftBehind(worlds[i], ip)
  }

  predicate ExpiresAt(worlds: seq<World>, events: seq<Event>, j: nat, ip: Address)
  {
    j < |events| && j < |worlds| && ExpiresAtOnce(worlds[j], events[j], ip)
  }

  /** The error the timer of `ip` can raise next. */
  ghost predicate RaisesAt(worlds: seq<World>, i: nat, ip: Address)
  {
    i < |worlds| && Enabled(worlds[i], Timer(ip, false)) && Step(worlds[i], Timer(ip, false)).Raised?
  }

  predicate LiveAt(worlds: seq<World>, j: nat, ip: Address)
  {
    j < |worlds| && ip in worlds[j].cache && Live(worlds[j].cache[ip])
  }

  lemma {:induction false} FirstLeftBehind(worlds: seq<World>, events: seq<Event>, hit: Address -> bool,
                                           i: nat, ip: Address)
    requires IsRun(worlds, events) && BootsFrom(worlds[0], hit) && LeftBehindAt(worlds, i, ip)
    ensures LeftAtBoot(worlds[0], hit, ip) || exists j: nat :: ExpiresAt(worlds, events, j, ip)
  {
    if i == 0 {
      BootExactly(worlds[0], hit, ip);
    } else {
      RunSound(worlds, events, i - 1);
      StepAt(worlds, events, i);
      LeftBehindAfter(worlds[i - 1], events[i - 1], worlds[i], ip);
      if LeftBehind(worlds[i - 1], ip) {
        FirstLeftBehind(worlds, events, hit, i - 1, ip);
      } else {
        assert ExpiresAt(worlds, events, i - 1, ip);
      }
    }
  }

  /** In every run an entry is ever left behind if and only if it was found hit at boot, or put in
      STALE and hit, with a counter that started at zero. */
  lemma RunLeftBehindExactly(worlds: seq<World>, events: seq<Event>, hit: Address -> bool, ip: Address)
    requires IsRun(worlds, events) && BootsFrom(worlds[0], hit)
    ensures (exists i: nat :: LeftBehindAt(worlds, i, ip)) <==>
            LeftAtBoot(worlds[0], hit, ip) || exists j: nat :: ExpiresAt(worlds, events, j, ip)
  {
    if i: nat :| LeftBehindAt(worlds, i, ip) {
      FirstLeftBehind(worlds, events, hit, i, ip);
    }
    if LeftAtBoot(worlds[0], hit, ip) {
      BootExactly(worlds[0], hit, ip);
      assert LeftBehindAt(worlds, 0, ip);
    }
    if j: nat :| ExpiresAt(worlds, events, j, ip) {
      RunSound(worlds, events, j);
      StepAt(worlds, events, j + 1);
      LeftBehindAfter(worlds[j], events[j], worlds[j + 1], ip);
      assert LeftBehindAt(worlds, j + 1, ip);
    }
  }

  lemma RaisesArmed(worlds: seq<World>, events: seq<Event>, i: nat, ip: Address)
    requires IsRun(worlds, events) && i < |worlds|
    ensures RaisesAt(worlds, i, ip) <==> Armed(worlds[i], ip)
  {
    RunSound(worlds, events, i);
    if TimerSet(worlds[i], ip) {
      LeftBehindExactly(worlds[i], Timer(ip, false), ip);
    }
  }

  lemma ArmedBefore(w: World, e: Event, w': World, ip: Address)
    requires AllSound(w) && StepsTo(w, e, w') && Armed(w', ip)
    ensures ip in w.cache && (Armed(w, ip) || (Live(w.cache[ip]) && ExpiresAtOnce(w, e, ip)))
  {
    LeftBehindAfter(w, e, w', ip);
  }

  lemma {:induction false} FirstArmed(worlds: seq<World>, events: seq<Event>, i: nat, ip: Address)
    requires IsRun(worlds, events) && i < |worlds| && Armed(worlds[i], ip)
    ensures exists j: nat :: ExpiresAt(worlds, events, j, ip) && LiveAt(worlds, j, ip)
  {
    BootsUnarmed(worlds, events, ip);
    if i > 0 {
      RunSound(worlds, events, i - 1);
      StepAt(worlds, events, i);
      ArmedBefore(worlds[i - 1], events[i - 1], worlds[i], ip);
      if Armed(worlds[i - 1], ip) {
        FirstArmed(worlds, events, i - 1, ip);
      } else {
        assert ExpiresAt(worlds, events, i - 1, ip) && LiveAt(worlds, i - 1, ip);
      }
    }
  }

  /** In every run the timer of an entry can ever raise an error if and only if the entry was put in
      STALE and hit, with a counter that started at zero, while it was live. */
  lemma RunRaisesExactly(worlds: seq<World>, events: seq<Event>, ip: Address)
    requires IsRun(worlds, events)
    ensures (exists i: nat :: RaisesAt(worlds, i, ip)) <==>
            exists j: nat :: ExpiresAt(worlds, events, j, ip) && LiveAt(worlds, j, ip)
  {
    if i: nat :| RaisesAt(worlds, i, ip) {
      RaisesArmed(worlds, events, i, ip);
      FirstArmed(worlds, events, i, ip);
    }
    if j: nat :| ExpiresAt(worlds, events, j, ip) && LiveAt(worlds, j, ip) {
      RunSound(worlds, events, j);
      StepAt(worlds, events, j + 1);
      LeftBehindAfter(worlds[j], events[j], worlds[j + 1], ip);
      RaisesArmed(worlds, events, j + 1, ip);
    }
  }

  lemma {:induction false} StaysLive(worlds: seq<World>, events: seq<Event>, i: nat, ip: Address)
    requires IsRun(worlds, events) && i < |worlds|
    requires forall j | 0 <= j <= i :: Counter(worlds[j].maxProbes) != 0
    ensures !LeftBehind(worlds[i], ip)
  {
    if i == 0 {
      var hit :| BootsFrom(worlds[0], hit);
      BootExactly(worlds[0], hit, ip);
    } else {
      StaysLive(worlds, events, i - 1, ip);
      RunSound(worlds, events, i - 1);
      StepAt(worlds, events, i);
      LeftBehindAfter(worlds[i - 1], events[i - 1], worlds[i], ip);
    }
  }

  /** As long as the maximum was never a multiple of 256, every entry is INCOMPLETE exactly when its
      fields are pending, is otherwise PROBE, STALE or REACHABLE, and has its timer set; and
      whatever event comes next, the machine raises no error. */
  lemma EntriesStayLive(worlds: seq<World>, events: seq<Event>, i: nat)
    requires IsRun(worlds, events) && i < |worlds|
    requires forall j | 0 <= j <= i :: Counter(worlds[j].maxProbes) != 0
    ensures forall ip | ip in worlds[i].cache :: Live(worlds[i].cache[ip])
    ensures forall e | Enabled(worlds[i], e) :: Step(worlds[i], e).Running?
  {
    forall ip | ip in worlds[i].cache ensures Live(worlds[i].cache[ip]) {
      StaysLive(worlds, events, i, ip);
    }
  }

  /** With a maximum that is a multiple of 256, an entry learned from a solicitation and hit at
      once is EXPIRED, has no timer, and so stays in the cache. */
  lemma ExpiredLeftBehind(intf: nat, maxProbes: nat, ip: Address, mac: nat, port: nat)
    returns (worlds: seq<World>, events: seq<Event>)
    requires Counter(maxProbes) == 0
    ensures IsRun(worlds, events) && worlds[0].maxProbes == maxProbes
    ensures var w := worlds[|events|];
            ip in w.cache && w.cache[ip].state == EXPIRED && !w.cache[ip].scheduled
  {
    var hit: Address -> bool := _ => false;
    var w0 := Repopulated(map[], intf, maxProbes, hit);
    worlds, events := [w0, Solicited(w0, ip, mac, port, true)], [Solicitation(ip, mac, port, true)];
    assert BootsFrom(worlds[0], hit);
  }

  lemma FirstResolved(w: World, ip: Address, mac: nat, port: nat)
    requires ip !in w.cache
    ensures var w' := SetEntry(w, ip, mac, port, REACHABLE, false, true);
            && w'.maxProbes == w.maxProbes && TimerSet(w', ip)
            && w'.cache[ip].fields.mac == mac && w'.cache[ip].fields.port == port
  {
  }

  lemma SolicitedArms(w: World, ip: Address, mac: nat, port: nat)
    requires TimerSet(w, ip) && !ShownAt(w, ip, mac, port) && Counter(w.maxProbes) == 0
    ensures Armed(Solicited(w, ip, mac, port, true), ip)
  {
    SolicitedPuts(w, Solicitation(ip, mac, port, true), ip);
  }

  /** With such a maximum, an entry that was resolved and is hit when a solicitation shows it at
      another MAC is EXPIRED with its timer still set, and the timer raises an error. */
  lemma TimerRaises(intf: nat, maxProbes: nat, ip: Address, mac: nat, other: nat, port: nat)
    returns (worlds: seq<World>, events: seq<Event>)
    requires Counter(maxProbes) == 0 && mac != other
    ensures IsRun(worlds, events) && worlds[0].maxProbes == maxProbes
    ensures events == [ArpMine(ip, mac, port), Solicitation(ip, other, port, true)]
    ensures forall hit :: Enabled(worlds[2], Timer(ip, hit)) && Step(worlds[2], Timer(ip, hit)).Raised?
  {
    var hit: Address -> bool := _ => false;
    var w0 := Repopulated(map[], intf, maxProbes, hit);
    var w1 := SetEntry(w0, ip, mac, port, REACHABLE, false, true);
    var w2 := Solicited(w1, ip, other, port, true);
    worlds, events := [w0, w1, w2], [ArpMine(ip, mac, port), Solicitation(ip, other, port, true)];
    assert IsRun(worlds, events) by {
      assert BootsFrom(worlds[0], hit);
      assert StepsTo(w0, events[0], w1) && StepsTo(w1, events[1], w2);
    }
    assert Armed(w2, ip) by {
      FirstResolved(w0, ip, mac, port);
      SolicitedArms(w1, ip, other, port);
    }
    RunSound(worlds, events, 2);
    forall hit ensures Enabled(w2, Timer(ip, hit)) && Step(w2, Timer(ip, hit)).Raised? {
      LeftBehindExactly(w2, Timer(ip, hit), ip);
    }
  }

  // ---- the counter of an entry at rest ----

  /** The world right after `ip` was last put in a state, or the first one. */
  function Since(worlds: seq<World>, events: seq<Event>, ip: Address, i: nat): (j: nat)
    requires |worlds| == |events| + 1 && i < |worlds|
    ensures j <= i
  {
    if i == 0 || Entered(worlds[i - 1], events[i - 1], ip).Some? then i else Since(worlds, events, ip, i - 1)
  }

  lemma FullAfter(w: World, e: Event, w': World, ip: Address)
    requires StepsTo(w, e, w') && ip in w'.cache && Resting(w'.cache[ip].state)
    ensures if Entered(w, e, ip).Some? then
              w'.cache[ip].probesLeft == Counter(w'.maxProbes)
            else
              ip in w.cache && Resting(w.cache[ip].state) && w'.cache[ip].probesLeft == w.cache[ip].probesLeft
  {
    StepFollows(w, e, w', ip);
  }

  /** In every run an entry that is STALE or REACHABLE has as many probes left as the maximum said
      when it was last put in a state. */
  lemma {:induction false} CounterIsFull(worlds: seq<World>, events: seq<Event>, i: nat, ip: Address)
    requires IsRun(worlds, events) && i < |worlds| && ip in worlds[i].cache && Resting(worlds[i].cache[ip].state)
    ensures worlds[i].cache[ip].probesLeft == Counter(worlds[Since(worlds, events, ip, i)].maxProbes)
  {
    if i == 0 {
      var hit :| BootsFrom(worlds[0], hit);
    } else {
      StepAt(worlds, events, i);
      FullAfter(worlds[i - 1], events[i - 1], worlds[i], ip);
      if Entered(worlds[i - 1], events[i - 1], ip).None? {
        CounterIsFull(worlds, events, i - 1, ip);
      }
    }
  }

  // ---- expiry ----

  /** The probes of a log that were sent for one address. */
  function SentFor(probes: seq<Probe>, ip: Address): seq<Probe>
  {
    if probes == [] then []
    else
      var last := probes[|probes| - 1];
      SentFor(probes[..|probes| - 1], ip) + (if last.ip == ip then [last] else [])
  }

  lemma {:induction false} SentForAppend(a: seq<Probe>, b: seq<Probe>, ip: Address)
    ensures SentFor(a + b, ip) == SentFor(a, ip) + SentFor(b, ip)
  {
    if b == [] {
      assert a + b == a;
    } else {
      assert (a + b)[..|a + b| - 1] == a + b[..|b| - 1];
      SentForAppend(a, b[..|b| - 1], ip);
    }
  }

  /** What a step adds to the log, all of it for one address. */
  ghost predicate Logs(w: World, w': World, a: Address, added: seq<Probe>)
  {
    w'.probes == w.probes + added && forall p | p in added :: p.ip == a
  }

  lemma {:induction false} SentForOne(added: seq<Probe>, a: Address, ip: Address)
    requires forall p | p in added :: p.ip == a
    ensures SentFor(added, ip) == if a == ip then added else []
  {
    if added != [] {
      SentForOne(added[..|added| - 1], a, ip);
    }
  }

  lemma LogsSent(w: World, w': World, a: Address, added: seq<Probe>, ip: Address)
    requires Logs(w, w', a, added)
    ensures SentFor(w'.probes, ip) == SentFor(w.probes, ip) + (if a == ip then added else [])
  {
    SentForAppend(w.probes, added, ip);
    SentForOne(added, a, ip);
  }

  lemma SetInternalSent(w: World, a: Address, f: Fields, s: EntryState, hit: bool, add: bool, ip: Address)
    requires Enterable(s) && a != ip
    ensures SentFor(SetInternal(w, a, f, s, hit, add).probes, ip) == SentFor(w.probes, ip)
  {
    var w' := SetInternal(w, a, f, s, hit, add);
    var added := w'.probes[|w.probes|..];
    LogsSent(w, w', a, added, ip);
  }

  lemma UpdateEntryStateSent(w: World, a: Address, s: EntryState, hit: bool, ip: Address)
    requires Enterable(s) && a != ip
    ensures SentFor(UpdateEntryState(w, a, s, hit).probes, ip) == SentFor(w.probes, ip)
  {
    var w' := UpdateEntryState(w, a, s, hit);
    var added := w'.probes[|w.probes|..];
    LogsSent(w, w', a, added, ip);
  }

  lemma ProcessSent(w: World, a: Address, hit: bool, ip: Address)
    requires a in w.cache && Runnable(w.cache[a].state)
    ensures SentFor(ProcessEntry(w, a, hit).probes, ip) ==
            SentFor(w.probes, ip) + (if a == ip then Fired(a, w.cache[a], hit).probes else [])
  {
    LogsSent(w, ProcessEntry(w, a, hit), a, Fired(a, w.cache[a], hit).probes, ip);
  }

  lemma AdvertisedSent(w: World, e: Event, ip: Address)
    requires e.Advertisement? && Entered(w, e, ip) == None
    ensures SentFor(Advertised(w, e.ip, e.mac, e.port, e.override, e.solicited, e.hit).probes, ip) ==
            SentFor(w.probes, ip)
  {
    if e.ip != ip {
      var s := if e.solicited then REACHABLE else STALE;
      SetInternalSent(w, e.ip, Resolved(w, e.mac, e.port), s, e.hit, true, ip);
      UpdateEntryStateSent(w, e.ip, REACHABLE, e.hit, ip);
      UpdateEntryStateSent(w, e.ip, STALE, e.hit, ip);
    }
  }

  predicate Fires(e: Event, ip: Address)
  {
    e.Timer? && e.ip == ip
  }

  /** An event that leaves an entry sends a probe for it only as its timer. */
  lemma StepSent(w: World, e: Event, w': World, ip: Address)
    requires StepsTo(w, e, w') && Leaves(w, e, ip)
    ensures SentFor(w'.probes, ip) ==
            SentFor(w.probes, ip) + (if Fires(e, ip) then Fired(ip, w.cache[ip], e.hit).probes else [])
  {
    match e
    case SentRequest(a) => if a != ip { SetInternalSent(w, a, PendingFields(w.intf), INCOMPLETE, false, true, ip); }
    case ArpMine(a, mac, port) => SetInternalSent(w, a, Resolved(w, mac, port), REACHABLE, false, true, ip);
    case ArpNotMine(a, mac, port) =>
      if a != ip { SetInternalSent(w, a, Resolved(w, mac, port), REACHABLE, false, false, ip); }
    case Solicitation(a, mac, port, hit) =>
      if a != ip { SetInternalSent(w, a, Resolved(w, mac, port), STALE, hit, true, ip); }
    case Advertisement(_, _, _, _, _, _) => AdvertisedSent(w, e, ip);
    case ClassID(_, _) =>
    case PortDown(_, order) => AllPendingProbes(w, order);
    case FlushRequest(_) =>
    case Timer(a, hit) => ProcessSent(w, a, hit, ip);
    case SetIntf(_) =>
    case SetMaxProbes(_) =>
    case RunClosure =>
  }

  /** The probe that goes out as an entry is put in a state: one, if it is put in STALE and is hit and
      the maximum leaves any. */
  function FirstProbes(ip: Address, how: Entering, maxProbes: nat, mac: nat, port: nat): seq<Probe>
  {
    if how.state == STALE && how.hit && maxProbes % 0x100 != 0 then [Unicast(ip, mac, port)] else []
  }

  lemma EnterSends(ip: Address, e: Entry, s: EntryState, maxProbes: nat, hit: bool)
    requires Enterable(s)
    ensures Enter(ip, e, s, maxProbes, hit).probes ==
            FirstProbes(ip, Entering(s, hit), maxProbes, e.fields.mac, e.fields.port)
    ensures Enter(ip, e, s, maxProbes, hit).entry.fields == e.fields
  {
  }

  /** The log grows by the first probe of `ip`, to where its entry is afterwards. */
  ghost predicate SendsFirst(w: World, w': World, ip: Address, how: Entering)
  {
    && ip in w'.cache
    && SentFor(w'.probes, ip) == SentFor(w.probes, ip)
         + FirstProbes(ip, how, w.maxProbes, w'.cache[ip].fields.mac, w'.cache[ip].fields.port)
  }

  lemma SetInternalSends(w: World, ip: Address, f: Fields, s: EntryState, hit: bool, add: bool, w': World)
    requires Enterable(s) && (add || ip in w.cache)
    requires w'.cache == SetInternal(w, ip, f, s, hit, add).cache
    requires w'.probes == SetInternal(w, ip, f, s, hit, add).probes
    ensures SendsFirst(w, w', ip, Entering(s, hit))
  {
    var e := if ip !in w.cache then Entry(f, UNINITIALIZED, Counter(w.maxProbes), false)
             else if FieldsMatch(w.cache[ip].fields, f) then w.cache[ip] else w.cache[ip].(fields := f);
    EnterSends(ip, e, s, w.maxProbes, hit);
    LogsSent(w, w', ip, Enter(ip, e, s, w.maxProbes, hit).probes, ip);
  }

  lemma AdvertisedSends(w: World, e: Event, ip: Address, w': World)
    requires e.Advertisement? && Entered(w, e, ip).Some?
    requires w' == Advertised(w, e.ip, e.mac, e.port, e.override, e.solicited, e.hit)
    ensures SendsFirst(w, w', ip, Entered(w, e, ip).value)
  {
    if ip !in w.cache || w.cache[ip].fields.pending || e.override {
      SetInternalSends(w, ip, Resolved(w, e.mac, e.port), if e.solicited then REACHABLE else STALE, e.hit, true, w');
    } else {
      var s := Entered(w, e, ip).value.state;
      EnterSends(ip, w.cache[ip], s, w.maxProbes, e.hit);
      LogsSent(w, w', ip, Enter(ip, w.cache[ip], s, w.maxProbes, e.hit).probes, ip);
    }
  }

  /** An event that puts an entry in a state sends at once one probe to it, or none. */
  lemma EnteringSends(w: World, e: Event, w': World, ip: Address)
    requires StepsTo(w, e, w') && Entered(w, e, ip).Some?
    ensures SendsFirst(w, w', ip, Entered(w, e, ip).value)
  {
    match e
    case SentRequest(_) => SetInternalSends(w, ip, PendingFields(w.intf), INCOMPLETE, false, true, w');
    case ArpMine(_, mac, port) => SetInternalSends(w, ip, Resolved(w, mac, port), REACHABLE, false, true, w');
    case ArpNotMine(_, mac, port) => SetInternalSends(w, ip, Resolved(w, mac, port), REACHABLE, false, false, w');
    case Solicitation(_, mac, port, hit) => SetInternalSends(w, ip, Resolved(w, mac, port), STALE, hit, true, w');
    case Advertisement(_, _, _, _, _, _) => AdvertisedSends(w, e, ip, w');
    case PortDown(_, order) =>
      AllPendingProbes(w, order);
      AllPendingPuts(w, order, ip);
  }

  function WithFiring(hits: seq<bool>, e: Event, ip: Address): seq<bool>
  {
    if Fires(e, ip) then hits + [e.hit] else hits
  }

  /** The hit bits the firings of `ip` find among the events from `i` to `j`. */
  function Hits(events: seq<Event>, ip: Address, i: nat, j: nat): seq<bool>
    requires i <= j <= |events|
  {
    if i == j then [] else WithFiring(Hits(events, ip, i, j - 1), events[j - 1], ip)
  }

  /** From `i` to `j` nothing but its own timer happens to `ip`: no answer, no removal, no port-down. */
  predicate Unattended(worlds: seq<World>, events: seq<Event>, ip: Address, i: nat, j: nat)
    requires |worlds| == |events| + 1 && i <= j <= |events|
  {
    forall k | i <= k < j :: Leaves(worlds[k], events[k], ip)
  }

  /** The cache holds what the entry on its own would have become, and has sent what it would. */
  predicate InStep(w: World, w': World, ip: Address, m: Moved)
  {
    && SentFor(w'.probes, ip) == SentFor(w.probes, ip) + m.probes
    && (ip in w'.cache <==> m.entry.state != EXPIRED)
    && (ip in w'.cache ==> SameButClass(m.entry, w'.cache[ip]) && Runnable(m.entry.state))
  }

  /** The class plays no part when the timer goes off. */
  lemma FiredSame(ip: Address, e: Entry, e': Entry, hit: bool)
    requires SameButClass(e, e') && Runnable(e.state)
    ensures var now, now' := Fired(ip, e, hit), Fired(ip, e', hit);
            && SameButClass(now.entry, now'.entry) && now'.probes == now.probes
            && (now.entry.state == EXPIRED || Runnable(now.entry.state))
  {
  }

  lemma FiresCache(before: World, e: Event, after: World, ip: Address, now: Moved)
    requires Fires(e, ip) && StepsTo(before, e, after) && ip in before.cache && Runnable(before.cache[ip].state)
    requires SameButClass(now.entry, Fired(ip, before.cache[ip], e.hit).entry)
    ensures ip in after.cache <==> now.entry.state != EXPIRED
    ensures ip in after.cache ==> SameButClass(now.entry, after.cache[ip])
  {
    StepFollows(before, e, after, ip);
  }

  lemma FiresInStep(w: World, before: World, e: Event, after: World, ip: Address, m: Moved)
    requires InStep(w, before, ip, m) && Fires(e, ip) && StepsTo(before, e, after)
    ensures ip in before.cache
    ensures var now := Fired(ip, m.entry, e.hit); InStep(w, after, ip, Moved(now.entry, m.probes + now.probes))
  {
    var now := Fired(ip, m.entry, e.hit);
    FiresThere(before, e, after, ip);
    FiredSame(ip, m.entry, before.cache[ip], e.hit);
    FiresCache(before, e, after, ip, now);
    assert SentFor(after.probes, ip) == SentFor(w.probes, ip) + (m.probes + now.probes) by {
      FiresSends(before, e, after, ip, now.probes);
      SentMore(SentFor(w.probes, ip), m.probes, now.probes);
    }
  }

  lemma FiresThere(before: World, e: Event, after: World, ip: Address)
    requires Fires(e, ip) && StepsTo(before, e, after)
    ensures ip in before.cache && Runnable(before.cache[ip].state)
  {
  }

  lemma FiresSends(before: World, e: Event, after: World, ip: Address, sent: seq<Probe>)
    requires Fires(e, ip) && StepsTo(before, e, after) && ip in before.cache && Runnable(before.cache[ip].state)
    requires sent == Fired(ip, before.cache[ip], e.hit).probes
    ensures SentFor(after.probes, ip) == SentFor(before.probes, ip) + sent
  {
    StepSent(before, e, after, ip);
  }

  lemma SentMore(a: seq<Probe>, b: seq<Probe>, c: seq<Probe>)
    ensures a + b + c == a + (b + c)
  {
  }

  lemma OtherInStep(w: World, before: World, e: Event, after: World, ip: Address, m: Moved)
    requires InStep(w, before, ip, m) && !Fires(e, ip) && StepsTo(before, e, after)
    requires Leaves(before, e, ip)
    ensures InStep(w, after, ip, m)
  {
    StepFollows(before, e, after, ip);
    StepSent(before, e, after, ip);
  }

  /** After its firings the entry of `w` is where it would be on its own, and the last firing found it
      there. */
  ghost predicate OnItsWay(w: World, w': World, ip: Address, hits: seq<bool>)
    requires ip in w.cache
  {
    && InStep(w, w', ip, Unanswered(ip, w.cache[ip], hits))
    && (hits != [] ==> Unanswered(ip, w.cache[ip], hits[..|hits| - 1]).entry.state != EXPIRED)
  }

  lemma NextOnItsWay(
      w: World, before: World, e: Event, after: World, ip: Address, hits: seq<bool>, hits': seq<bool>)
    requires ip in w.cache && OnItsWay(w, before, ip, hits) && Leaves(before, e, ip) && StepsTo(before, e, after)
    requires hits' == WithFiring(hits, e, ip)
    ensures OnItsWay(w, after, ip, hits')
  {
    var m := Unanswered(ip, w.cache[ip], hits);
    if Fires(e, ip) {
      FiresInStep(w, before, e, after, ip, m);
      assert hits'[..|hits'| - 1] == hits;
    } else {
      OtherInStep(w, before, e, after, ip, m);
    }
  }

  lemma LastLeaves(worlds: seq<World>, events: seq<Event>, ip: Address, i: nat, j: nat)
    requires |worlds| == |events| + 1 && i < j <= |events| && Unattended(worlds, events, ip, i, j)
    ensures Leaves(worlds[j - 1], events[j - 1], ip) && Unattended(worlds, events, ip, i, j - 1)
  {
    var k := j - 1;
    assert Leaves(worlds[k], events[k], ip);
  }

  /** Whatever else goes on in the cache, an entry that nobody answers for sends the probes it would
      send on its own, and is in the cache exactly until it expires. */
  lemma {:induction false} GoesItsWay(worlds: seq<World>, events: seq<Event>, i: nat, j: nat, ip: Address)
    requires IsRun(worlds, events) && i <= j < |worlds| && Unattended(worlds, events, ip, i, j)
    requires ip in worlds[i].cache && Runnable(worlds[i].cache[ip].state)
    ensures OnItsWay(worlds[i], worlds[j], ip, Hits(events, ip, i, j))
  {
    if i == j {
      BeginsItsWay(worlds[i], ip);
    } else {
      LastLeaves(worlds, events, ip, i, j);
      GoesItsWay(worlds, events, i, j - 1, ip);
      GoesOn(worlds, events, i, j, ip, Hits(events, ip, i, j - 1), Hits(events, ip, i, j));
    }
  }

  lemma GoesOn(
      worlds: seq<World>, events: seq<Event>, i: nat, j: nat, ip: Address, hits: seq<bool>, hits': seq<bool>)
    requires IsRun(worlds, events) && i < j < |worlds| && Leaves(worlds[j - 1], events[j - 1], ip)
    requires ip in worlds[i].cache && OnItsWay(worlds[i], worlds[j - 1], ip, hits)
    requires hits' == WithFiring(hits, events[j - 1], ip)
    ensures OnItsWay(worlds[i], worlds[j], ip, hits')
  {
    StepAt(worlds, events, j);
    NextOnItsWay(worlds[i], worlds[j - 1], events[j - 1], worlds[j], ip, hits, hits');
  }

  lemma BeginsItsWay(w: World, ip: Address)
    requires ip in w.cache && Runnable(w.cache[ip].state)
    ensures OnItsWay(w, w, ip, [])
  {
    assert SentFor(w.probes, ip) + [] == SentFor(w.probes, ip);
  }

  /** What a run has done for `ip` between two worlds: so many probes were sent, and whether it is
      still there, in the cache and once all closures have run in the table. */
  ghost predicate Probed(w: World, w': World, ip: Address, sent: nat, there: bool)
  {
    && |SentFor(w'.probes, ip)| == |SentFor(w.probes, ip)| + sent
    && (ip in w'.cache <==> there) && (ip in Final(w') <==> there)
  }

  lemma ProbedBy(worlds: seq<World>, events: seq<Event>, i: nat, j: nat, ip: Address, m: Moved)
    requires IsRun(worlds, events) && i <= j < |worlds| && InStep(worlds[i], worlds[j], ip, m)
    ensures Probed(worlds[i], worlds[j], ip, |m.probes|, m.entry.state != EXPIRED)
  {
    TableMatchesCache(worlds, events, j, ip);
  }

  lemma WentItsWay(worlds: seq<World>, events: seq<Event>, i: nat, j: nat, ip: Address)
    requires IsRun(worlds, events) && i <= j < |worlds| && Unattended(worlds, events, ip, i, j)
    requires ip in worlds[i].cache && Runnable(worlds[i].cache[ip].state)
    ensures var hits := Hits(events, ip, i, j);
            var m := Unanswered(ip, worlds[i].cache[ip], hits);
            && OnItsWay(worlds[i], worlds[j], ip, hits)
            && Probed(worlds[i], worlds[j], ip, |m.probes|, m.entry.state != EXPIRED)
  {
    GoesItsWay(worlds, events, i, j, ip);
    ProbedBy(worlds, events, i, j, ip, Unanswered(ip, worlds[i].cache[ip], Hits(events, ip, i, j)));
  }

  /** How far a probing entry has come, the last firing having found it there. */
  lemma ProbesDone(w: World, w': World, ip: Address, hits: seq<bool>)
    requires ip in w.cache && w.cache[ip].state in {INCOMPLETE, PROBE} && OnItsWay(w, w', ip, hits)
    ensures var m, n, left := Unanswered(ip, w.cache[ip], hits), |hits|, w.cache[ip].probesLeft;
            && n <= left + 1 && (m.entry.state != EXPIRED <==> n <= left)
            && |m.probes| == if n <= left then n else left
  {
    ProbesThenExpires(ip, w.cache[ip], hits);
    if hits != [] {
      ProbesThenExpires(ip, w.cache[ip], hits[..|hits| - 1]);
    }
  }

  /** An entry that is being probed and that nobody answers for sends its remaining probes, one each
      time its timer goes off, and the next time is removed from the cache and from the table. */
  lemma ExpiresAndIsRemoved(worlds: seq<World>, events: seq<Event>, i: nat, j: nat, ip: Address)
    requires IsRun(worlds, events) && i <= j < |worlds| && Unattended(worlds, events, ip, i, j)
    requires ip in worlds[i].cache && worlds[i].cache[ip].state in {INCOMPLETE, PROBE}
    ensures var n, left := |Hits(events, ip, i, j)|, worlds[i].cache[ip].probesLeft;
            n <= left + 1 && Probed(worlds[i], worlds[j], ip, if n <= left then n else left, n <= left)
  {
    WentItsWay(worlds, events, i, j, ip);
    ProbesDone(worlds[i], worlds[j], ip, Hits(events, ip, i, j));
  }

  /** The same for an entry at rest that is first hit at firing `k`. */
  lemma HitsDone(w: World, w': World, ip: Address, hits: seq<bool>, k: nat)
    requires ip in w.cache && Resting(w.cache[ip].state) && OnItsWay(w, w', ip, hits) && FirstHit(hits, k)
    ensures var m, n, left := Unanswered(ip, w.cache[ip], hits), |hits|, w.cache[ip].probesLeft;
            && n <= k + left + 1 && (m.entry.state != EXPIRED <==> n <= k + left)
            && |m.probes| == ProbesAfter(k, left, n)
  {
    HitThenExpires(ip, w.cache[ip], hits, k);
    if hits != [] {
      HitThenExpires(ip, w.cache[ip], hits[..|hits| - 1], k);
    }
  }

  /** The probes out of `left` that `n` firings send when they begin at firing `k`. */
  function ProbesAfter(k: nat, left: nat, n: nat): nat
  {
    if n <= k then 0 else if n <= k + left then n - k else left
  }

  lemma HitAndGone(worlds: seq<World>, events: seq<Event>, i: nat, j: nat, ip: Address, k: nat, left: nat)
    requires IsRun(worlds, events) && i <= j < |worlds| && Unattended(worlds, events, ip, i, j)
    requires ip in worlds[i].cache && Resting(worlds[i].cache[ip].state) && left == worlds[i].cache[ip].probesLeft
    requires FirstHit(Hits(events, ip, i, j), k)
    ensures var n := |Hits(events, ip, i, j)|;
            n <= k + left + 1 && Probed(worlds[i], worlds[j], ip, ProbesAfter(k, left, n), n <= k + left)
  {
    WentItsWay(worlds, events, i, j, ip);
    HitsDone(worlds[i], worlds[j], ip, Hits(events, ip, i, j), k);
  }

  /** An entry that is STALE or REACHABLE and that nobody answers for sends nothing until its timer
      finds it hit. From then on it sends one probe each time, as many as the maximum said, modulo
      256, when it was last put in a state, and the next time is removed from the cache and from the
      table. */
  lemma HitAndRemoved(worlds: seq<World>, events: seq<Event>, i: nat, j: nat, ip: Address, k: nat)
    requires IsRun(worlds, events) && i <= j < |worlds| && Unattended(worlds, events, ip, i, j)
    requires ip in worlds[i].cache && Resting(worlds[i].cache[ip].state)
    requires FirstHit(Hits(events, ip, i, j), k)
    ensures var n, left := |Hits(events, ip, i, j)|, Counter(worlds[Since(worlds, events, ip, i)].maxProbes);
            n <= k + left + 1 && Probed(worlds[i], worlds[j], ip, ProbesAfter(k, left, n), n <= k + left)
  {
    CounterIsFull(worlds, events, i, ip);
    HitAndGone(worlds, events, i, j, ip, k, worlds[i].cache[ip].probesLeft);
  }
}
