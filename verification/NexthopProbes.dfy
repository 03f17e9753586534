/** Probes for resolved next hops: one per next hop that some monitored route or label refers to. */
module NexthopProbes {
  import opened Wrappers

  datatype NextHop = NextHop(addr: nat, intf: nat)

  /** What a delta is about: a route of some table, or a label of the label FIB. */
  datatype Id = Route(table: nat, prefix: nat) | Label(value: nat)

  /** A route or label entry: whether it is resolved, whether its action is to forward to next
      hops, the client whose entry is best, and its normalized next hops. */
  datatype Entry = Entry(resolved: bool, forwards: bool, client: nat, hops: seq<NextHop>)

  datatype Config = Config(monitored: set<nat>, standaloneRib: bool)

  /** `skipRoute` and `skipLabelFibEntry`. The latter skips the clients that are monitored. */
  predicate Skips(cfg: Config, id: Id, e: Entry)
  {
    match id
    case Route(_, _) => !e.resolved || !e.forwards || cfg.standaloneRib || e.client !in cfg.monitored
    case Label(_) => !e.forwards || e.client in cfg.monitored
  }

  /** The next hops an entry refers to, as far as the monitor is concerned. */
  function References(cfg: Config, id: Id, e: Option<Entry>): seq<NextHop>
  {
    if e.None? || Skips(cfg, id, e.value) then [] else e.value.hops
  }

  type Tables = map<Id, Entry>

  function Lookup(t: Tables, id: Id): Option<Entry>
  {
    if id in t then Some(t[id]) else None
  }

  datatype Change = Change(id: Id, now: Option<Entry>)

  function Updated(t: Tables, c: Change): Tables
  {
    if c.now.Some? then t[c.id := c.now.value] else t - {c.id}
  }

  function After(t: Tables, cs: seq<Change>): Tables
  {
    if cs == [] then t else Updated(After(t, cs[..|cs| - 1]), cs[|cs| - 1])
  }

  /** What the monitor collects from a delta. */
  function Added(cfg: Config, cs: seq<Change>): seq<NextHop>
  {
    if cs == [] then [] else Added(cfg, cs[..|cs| - 1]) + References(cfg, cs[|cs| - 1].id, cs[|cs| - 1].now)
  }

  function Removed(cfg: Config, t: Tables, cs: seq<Change>): seq<NextHop>
  {
    if cs == [] then []
    else
      var before, id := cs[..|cs| - 1], cs[|cs| - 1].id;
      Removed(cfg, t, before) + References(cfg, id, Lookup(After(t, before), id))
  }

  /** `probes` says of each probe whether it runs. */
  datatype Scheduler = Scheduler(useCount: map<NextHop, int>, probes: map<NextHop, bool>)

  datatype Outcome = Running(scheduler: Scheduler) | CheckFailed

  function AddOne(s: Scheduler, h: NextHop): Scheduler
  {
    if h in s.useCount then s.(useCount := s.useCount[h := s.useCount[h] + 1])
    else Scheduler(s.useCount[h := 1], if h in s.probes then s.probes else s.probes[h := false])
  }

  function RemoveOne(s: Scheduler, h: NextHop): Outcome
  {
    if h !in s.useCount then CheckFailed
    else if s.useCount[h] == 1 then Running(Scheduler(s.useCount - {h}, s.probes - {h}))
    else Running(s.(useCount := s.useCount[h := s.useCount[h] - 1]))
  }

  function AddAll(s: Scheduler, hops: seq<NextHop>): Scheduler
  {
    if hops == [] then s else AddOne(AddAll(s, hops[..|hops| - 1]), hops[|hops| - 1])
  }

  function RemoveAll(s: Scheduler, hops: seq<NextHop>): Outcome
  {
    if hops == [] then Running(s)
    else
      var r := RemoveAll(s, hops[..|hops| - 1]);
      if r.CheckFailed? then r else RemoveOne(r.scheduler, hops[|hops| - 1])
  }

  /** `processChangedResolvedNexthops`: all additions, then all removals. */
  function ProcessChanged(s: Scheduler, added: seq<NextHop>, removed: seq<NextHop>): Outcome
  {
    RemoveAll(AddAll(s, added), removed)
  }

  function ProcessDelta(s: Scheduler, cfg: Config, t: Tables, cs: seq<Change>): Outcome
  {
    ProcessChanged(s, Added(cfg, cs), Removed(cfg, t, cs))
  }

  /** `schedule`: a probe runs exactly when its next hop has no neighbor entry. */
  function Scheduled(s: Scheduler, missing: NextHop -> bool): Scheduler
  {
    s.(probes := s.probes + map h | h in s.useCount :: missing(h))
  }

  // ---- counts as multisets ----

  /** The use counts are those of `uses`, and there is a probe for each next hop used. */
  ghost predicate Counts(s: Scheduler, uses: multiset<NextHop>)
  {
    && s.probes.Keys == s.useCount.Keys
    && forall h: NextHop :: (h in s.useCount <==> h in uses) && (h in s.useCount ==> s.useCount[h] == uses[h])
  }

  lemma AddOneCounts(s: Scheduler, uses: multiset<NextHop>, h: NextHop)
    requires Counts(s, uses)
    ensures Counts(AddOne(s, h), uses + multiset{h})
  {
  }

  lemma RemoveOneCounts(s: Scheduler, uses: multiset<NextHop>, h: NextHop)
    requires Counts(s, uses)
    ensures RemoveOne(s, h).Running? <==> h in uses
    ensures h in uses ==> Counts(RemoveOne(s, h).scheduler, uses - multiset{h})
  {
  }

  lemma {:induction false} AddAllCounts(s: Scheduler, uses: multiset<NextHop>, hops: seq<NextHop>)
    requires Counts(s, uses)
    ensures Counts(AddAll(s, hops), uses + multiset(hops))
  {
    if hops != [] {
      var before, last := hops[..|hops| - 1], hops[|hops| - 1];
      AddAllCounts(s, uses, before);
      AddOneCounts(AddAll(s, before), uses + multiset(before), last);
      assert hops == before + [last];
      assert uses + multiset(before) + multiset{last} == uses + multiset(hops);
    }
  }

  /** Removals meet no failing CHECK exactly when they remove nothing that is not used. */
  lemma {:induction false} RemoveAllCounts(s: Scheduler, uses: multiset<NextHop>, hops: seq<NextHop>)
    requires Counts(s, uses)
    ensures RemoveAll(s, hops).Running? <==> multiset(hops) <= uses
    ensures multiset(hops) <= uses ==> Counts(RemoveAll(s, hops).scheduler, uses - multiset(hops))
  {
    if hops != [] {
      var before, last := hops[..|hops| - 1], hops[|hops| - 1];
      assert hops == before + [last];
      assert multiset(hops) == multiset(before) + multiset{last};
      RemoveAllCounts(s, uses, before);
      if multiset(before) <= uses {
        RemoveOneCounts(RemoveAll(s, before).scheduler, uses - multiset(before), last);
        TakeOneMore(uses, multiset(before), last);
      } else {
        assert multiset(before) <= multiset(hops);
      }
    }
  }

  // ---- references from tables ----

  /** All references to `h`, as pairs of an entry and a position in its next hops. */
  function ReferencesTo(cfg: Config, t: Tables, h: NextHop): set<(Id, nat)>
  {
    set id, i | id in t && 0 <= i < |References(cfg, id, Some(t[id]))|
                && References(cfg, id, Some(t[id]))[i] == h :: (id, i)
  }

  function At(id: Id, hops: seq<NextHop>, h: NextHop): set<(Id, nat)>
  {
    set i | 0 <= i < |hops| && hops[i] == h :: (id, i)
  }

  lemma {:induction false} AtCounts(id: Id, hops: seq<NextHop>, h: NextHop)
    ensures |At(id, hops, h)| == multiset(hops)[h]
  {
    if hops != [] {
      var n := |hops| - 1;
      var before, last := hops[..n], hops[n];
      AtCounts(id, before, h);
      assert hops == before + [last];
      if last == h {
        assert At(id, hops, h) == At(id, before, h) + {(id, n)};
      } else {
        assert At(id, hops, h) == At(id, before, h);
      }
    }
  }

  lemma ReferencesBut(cfg: Config, t: Tables, id: Id, h: NextHop)
    ensures |ReferencesTo(cfg, t, h)|
         == |ReferencesTo(cfg, t - {id}, h)| + multiset(References(cfg, id, Lookup(t, id)))[h]
  {
    var others, own := ReferencesTo(cfg, t - {id}, h), At(id, References(cfg, id, Lookup(t, id)), h);
    assert ReferencesTo(cfg, t, h) == others + own;
    assert others !! own;
    AtCounts(id, References(cfg, id, Lookup(t, id)), h);
  }

  lemma ReferencesStep(cfg: Config, t: Tables, c: Change, h: NextHop)
    ensures |ReferencesTo(cfg, Updated(t, c), h)|
         == |ReferencesTo(cfg, t, h)| - multiset(References(cfg, c.id, Lookup(t, c.id)))[h]
            + multiset(References(cfg, c.id, c.now))[h]
  {
    var t' := Updated(t, c);
    assert t - {c.id} == t' - {c.id} && Lookup(t', c.id) == c.now;
    ReferencesBut(cfg, t, c.id, h);
    ReferencesBut(cfg, t', c.id, h);
  }

  /** What the monitor collects is exactly what the tables gain and lose. */
  lemma {:induction false} DeltaReferences(cfg: Config, t: Tables, cs: seq<Change>, h: NextHop)
    ensures |ReferencesTo(cfg, After(t, cs), h)|
         == |ReferencesTo(cfg, t, h)| + multiset(Added(cfg, cs))[h] - multiset(Removed(cfg, t, cs))[h]
  {
    if cs != [] {
      var before, c := cs[..|cs| - 1], cs[|cs| - 1];
      DeltaReferences(cfg, t, before, h);
      ReferencesStep(cfg, After(t, before), c, h);
    }
  }

  // ---- runs ----

  /** One state update: the changes of routes and labels, and which next hops then have no
      neighbor entry. `schedules` says whether the probes are gone over again. */
  datatype Update = Update(changes: seq<Change>, schedules: bool, missing: NextHop -> bool)

  /** `stateUpdated` on the scheduler's side. */
  function Step(s: Scheduler, cfg: Config, t: Tables, u: Update): Outcome
  {
    var r := ProcessDelta(s, cfg, t, u.changes);
    if r.CheckFailed? then r
    else if u.schedules || Added(cfg, u.changes) != [] || Removed(cfg, t, u.changes) != [] then
      Running(Scheduled(r.scheduler, u.missing))
    else r
  }

  function TablesAfter(us: seq<Update>): Tables
  {
    if us == [] then map[] else After(TablesAfter(us[..|us| - 1]), us[|us| - 1].changes)
  }

  function RunAll(cfg: Config, us: seq<Update>): Outcome
  {
    if us == [] then Running(Scheduler(map[], map[]))
    else
      var r := RunAll(cfg, us[..|us| - 1]);
      if r.CheckFailed? then r else Step(r.scheduler, cfg, TablesAfter(us[..|us| - 1]), us[|us| - 1])
  }

  /** `uses` is the multiset of references the tables hold. */
  ghost predicate AreReferences(cfg: Config, t: Tables, uses: multiset<NextHop>)
  {
    forall h: NextHop :: uses[h] == |ReferencesTo(cfg, t, h)|
  }

  lemma DeltaKeeps(s: Scheduler, cfg: Config, t: Tables, cs: seq<Change>, uses: multiset<NextHop>)
    returns (uses': multiset<NextHop>)
    requires Counts(s, uses) && AreReferences(cfg, t, uses)
    ensures ProcessDelta(s, cfg, t, cs).Running? && Counts(ProcessDelta(s, cfg, t, cs).scheduler, uses')
    ensures AreReferences(cfg, After(t, cs), uses')
  {
    var added, removed := multiset(Added(cfg, cs)), multiset(Removed(cfg, t, cs));
    forall h: NextHop
      ensures removed[h] <= (uses + added)[h]
      ensures (uses + added - removed)[h] == |ReferencesTo(cfg, After(t, cs), h)|
    {
      DeltaReferences(cfg, t, cs, h);
    }
    uses' := uses + added - removed;
    AddAllCounts(s, uses, Added(cfg, cs));
    RemoveAllCounts(AddAll(s, Added(cfg, cs)), uses + added, Removed(cfg, t, cs));
  }

  lemma ScheduledCounts(s: Scheduler, uses: multiset<NextHop>, missing: NextHop -> bool)
    requires Counts(s, uses)
    ensures Counts(Scheduled(s, missing), uses)
    ensures forall h | h in s.probes :: Scheduled(s, missing).probes[h] == missing(h)
  {
  }

  lemma {:induction false} RunCounts(cfg: Config, us: seq<Update>) returns (uses: multiset<NextHop>)
    ensures RunAll(cfg, us).Running? && Counts(RunAll(cfg, us).scheduler, uses)
    ensures AreReferences(cfg, TablesAfter(us), uses)
  {
    if us == [] {
      uses := multiset{};
      assert forall h :: ReferencesTo(cfg, map[], h) == {};
    } else {
      var before, u := us[..|us| - 1], us[|us| - 1];
      uses := RunCounts(cfg, before);
      var s, t := RunAll(cfg, before).scheduler, TablesAfter(before);
      uses := DeltaKeeps(s, cfg, t, u.changes, uses);
      ScheduledCounts(ProcessDelta(s, cfg, t, u.changes).scheduler, uses, u.missing);
    }
  }

  /** Entries that count: resolved routes of monitored clients, unless routes are kept in a RIB of
      their own, and labels of clients that are not monitored; both only if they forward. */
  predicate Counted(cfg: Config, id: Id, e: Entry)
  {
    && e.forwards
    && if id.Route? then e.resolved && !cfg.standaloneRib && e.client in cfg.monitored
       else e.client !in cfg.monitored
  }

  /** References to `h` that count. */
  function CountedTo(cfg: Config, t: Tables, h: NextHop): set<(Id, nat)>
  {
    set id, i | id in t && 0 <= i < |t[id].hops| && t[id].hops[i] == h && Counted(cfg, id, t[id]) :: (id, i)
  }

  lemma CountedAre(cfg: Config, t: Tables, h: NextHop)
    ensures ReferencesTo(cfg, t, h) == CountedTo(cfg, t, h)
  {
    forall x | x in ReferencesTo(cfg, t, h) ensures x in CountedTo(cfg, t, h) {
    }
    forall x | x in CountedTo(cfg, t, h) ensures x in ReferencesTo(cfg, t, h) {
    }
  }

  /** After every sequence of updates no CHECK has failed, each use count is the number of
      references that count, and a next hop has a count and a probe exactly when there is one. */
  lemma UseCountsExact(cfg: Config, us: seq<Update>, h: NextHop)
    ensures RunAll(cfg, us).Running?
    ensures var s, n := RunAll(cfg, us).scheduler, |CountedTo(cfg, TablesAfter(us), h)|;
            && (h in s.useCount <==> n > 0) && (h in s.probes <==> n > 0)
            && (h in s.useCount ==> s.useCount[h] == n)
  {
    var uses := RunCounts(cfg, us);
    CountedAre(cfg, TablesAfter(us), h);
  }

  predicate Refers(cfg: Config, id: Id, e: Option<Entry>)
  {
    e.Some? && e.value.hops != [] && Counted(cfg, id, e.value)
  }

  /** A change to or from an entry that counts and has next hops. */
  predicate Matters(cfg: Config, t: Tables, cs: seq<Change>, k: nat)
    requires k < |cs|
  {
    Refers(cfg, cs[k].id, cs[k].now) || Refers(cfg, cs[k].id, Lookup(After(t, cs[..k]), cs[k].id))
  }

  lemma {:induction false} CollectedExactly(cfg: Config, t: Tables, cs: seq<Change>)
    ensures Added(cfg, cs) == [] == Removed(cfg, t, cs) <==> forall k: nat | k < |cs| :: !Matters(cfg, t, cs, k)
  {
    if cs != [] {
      var n := |cs| - 1;
      var before := cs[..n];
      CollectedExactly(cfg, t, before);
      assert forall k: nat | k < n :: Matters(cfg, t, before, k) == Matters(cfg, t, cs, k) by {
        forall k: nat | k < n ensures Matters(cfg, t, before, k) == Matters(cfg, t, cs, k) {
          assert before[..k] == cs[..k] && before[k] == cs[k];
        }
      }
      assert Matters(cfg, t, cs, n) <==>
             || References(cfg, cs[n].id, cs[n].now) != []
             || References(cfg, cs[n].id, Lookup(After(t, before), cs[n].id)) != [];
    }
  }

  /** The update asks for the probes to be gone over, or a change in it matters. */
  predicate GoneOver(cfg: Config, t: Tables, u: Update)
  {
    u.schedules || exists k: nat | k < |u.changes| :: Matters(cfg, t, u.changes, k)
  }

  lemma UntouchedStep(s: Scheduler, cfg: Config, t: Tables, u: Update)
    requires !GoneOver(cfg, t, u)
    ensures Step(s, cfg, t, u) == Running(s)
  {
    CollectedExactly(cfg, t, u.changes);
  }

  lemma ScheduledStep(s: Scheduler, cfg: Config, t: Tables, u: Update, h: NextHop)
    requires GoneOver(cfg, t, u) && ProcessDelta(s, cfg, t, u.changes).Running?
    requires var r := ProcessDelta(s, cfg, t, u.changes).scheduler; r.probes.Keys == r.useCount.Keys
    ensures Step(s, cfg, t, u).Running?
    ensures var r := Step(s, cfg, t, u).scheduler; h in r.probes ==> r.probes[h] == u.missing(h)
  {
    CollectedExactly(cfg, t, u.changes);
  }

  /** After such an update exactly the probes run whose next hop has no neighbor entry; any other
      update leaves the probes and the counts as they were. */
  lemma ProbesFollowNeighbors(cfg: Config, us: seq<Update>, h: NextHop)
    requires us != []
    ensures RunAll(cfg, us).Running? && RunAll(cfg, us[..|us| - 1]).Running?
    ensures var s, before, u := RunAll(cfg, us).scheduler, us[..|us| - 1], us[|us| - 1];
            if GoneOver(cfg, TablesAfter(before), u) then h in s.probes ==> s.probes[h] == u.missing(h)
            else s == RunAll(cfg, before).scheduler
  {
    var before, u := us[..|us| - 1], us[|us| - 1];
    var uses := RunCounts(cfg, before);
    var s, t := RunAll(cfg, before).scheduler, TablesAfter(before);
    if GoneOver(cfg, t, u) {
      var _ := DeltaKeeps(s, cfg, t, u.changes, uses);
      ScheduledStep(s, cfg, t, u, h);
    } else {
      UntouchedStep(s, cfg, t, u);
    }
  }

  // ---- labels of monitored clients ----

  /** What the monitor is for: a label counts, as a route does, when its client is monitored. */
  function IntendedTo(cfg: Config, t: Tables, h: NextHop): set<(Id, nat)>
  {
    set id, i | id in t && 0 <= i < |t[id].hops| && t[id].hops[i] == h
                && t[id].forwards && t[id].client in cfg.monitored
                && (id.Route? ==> t[id].resolved && !cfg.standaloneRib) :: (id, i)
  }

  /** References to `h` from forwarding labels whose client is monitored, or is not. */
  function LabelReferences(cfg: Config, t: Tables, monitored: bool, h: NextHop): set<(Id, nat)>
  {
    set id, i | id in t && id.Label? && t[id].forwards && (t[id].client in cfg.monitored) == monitored
                && 0 <= i < |t[id].hops| && t[id].hops[i] == h :: (id, i)
  }

  function RouteReferences(cfg: Config, t: Tables, h: NextHop): set<(Id, nat)>
  {
    set id, i | id in t && id.Route? && t[id].resolved && t[id].forwards && !cfg.standaloneRib
                && t[id].client in cfg.monitored && 0 <= i < |t[id].hops| && t[id].hops[i] == h :: (id, i)
  }

  /** The code counts labels of unmonitored clients where those of monitored ones are meant. */
  lemma ReferencesDiffer(cfg: Config, t: Tables, h: NextHop)
    ensures |CountedTo(cfg, t, h)| == |RouteReferences(cfg, t, h)| + |LabelReferences(cfg, t, false, h)|
    ensures |IntendedTo(cfg, t, h)| == |RouteReferences(cfg, t, h)| + |LabelReferences(cfg, t, true, h)|
  {
    CountedParts(cfg, t, h);
    IntendedParts(cfg, t, h);
    Disjoint(cfg, t, true, h);
    Disjoint(cfg, t, false, h);
  }

  lemma Disjoint(cfg: Config, t: Tables, monitored: bool, h: NextHop)
    ensures RouteReferences(cfg, t, h) !! LabelReferences(cfg, t, monitored, h)
  {
  }

  lemma CountedParts(cfg: Config, t: Tables, h: NextHop)
    ensures CountedTo(cfg, t, h) == RouteReferences(cfg, t, h) + LabelReferences(cfg, t, false, h)
  {
    forall x | x in CountedTo(cfg, t, h)
      ensures x in RouteReferences(cfg, t, h) + LabelReferences(cfg, t, false, h)
    {
    }
    forall x | x in RouteReferences(cfg, t, h) + LabelReferences(cfg, t, false, h)
      ensures x in CountedTo(cfg, t, h)
    {
    }
  }

  lemma IntendedParts(cfg: Config, t: Tables, h: NextHop)
    ensures IntendedTo(cfg, t, h) == RouteReferences(cfg, t, h) + LabelReferences(cfg, t, true, h)
  {
    forall x | x in IntendedTo(cfg, t, h)
      ensures x in RouteReferences(cfg, t, h) + LabelReferences(cfg, t, true, h)
    {
    }
    forall x | x in RouteReferences(cfg, t, h) + LabelReferences(cfg, t, true, h)
      ensures x in IntendedTo(cfg, t, h)
    {
    }
  }

  function UseCount(s: Scheduler, h: NextHop): int
  {
    if h in s.useCount then s.useCount[h] else 0
  }

  /** After any sequence of updates the use counts are the intended ones exactly when, for every
      next hop, labels of monitored and of unmonitored clients refer to it equally often. */
  lemma IntendedExactly(cfg: Config, us: seq<Update>)
    ensures RunAll(cfg, us).Running?
    ensures var s, t := RunAll(cfg, us).scheduler, TablesAfter(us);
            (forall h: NextHop :: UseCount(s, h) == |IntendedTo(cfg, t, h)|) <==>
            (forall h: NextHop :: |LabelReferences(cfg, t, true, h)| == |LabelReferences(cfg, t, false, h)|)
  {
    var uses := RunCounts(cfg, us);
    var s, t := RunAll(cfg, us).scheduler, TablesAfter(us);
    forall h: NextHop
      ensures UseCount(s, h) - |IntendedTo(cfg, t, h)|
           == |LabelReferences(cfg, t, false, h)| - |LabelReferences(cfg, t, true, h)|
    {
      UseCountsExact(cfg, us, h);
      ReferencesDiffer(cfg, t, h);
    }
  }

  /** So they are when no label forwards to next hops. */
  lemma IntendedWithoutLabels(cfg: Config, us: seq<Update>, h: NextHop)
    requires forall id | id in TablesAfter(us) && id.Label? :: !TablesAfter(us)[id].forwards
    ensures RunAll(cfg, us).Running?
    ensures UseCount(RunAll(cfg, us).scheduler, h) == |IntendedTo(cfg, TablesAfter(us), h)|
  {
    UseCountsExact(cfg, us, h);
    ReferencesDiffer(cfg, TablesAfter(us), h);
    assert LabelReferences(cfg, TablesAfter(us), true, h) == {} == LabelReferences(cfg, TablesAfter(us), false, h);
  }

  /** One update that adds one entry to empty tables. */
  lemma FirstEntry(cfg: Config, id: Id, e: Entry, missing: NextHop -> bool) returns (us: seq<Update>)
    ensures us == [Update([Change(id, Some(e))], false, missing)] && TablesAfter(us) == map[id := e]
    ensures Added(cfg, us[0].changes) == References(cfg, id, Some(e))
  {
    var c := Change(id, Some(e));
    us := [Update([c], false, missing)];
    assert us[..0] == [] && [c][..0] == [];
    assert TablesAfter(us[..0]) == map[] && After(map[], [c][..0]) == map[];
    assert Updated(map[], c) == map[id := e];
  }

  /** A label that a monitored client adds leaves its next hop without a count and a probe, though
      one reference to it is intended. */
  lemma MonitoredLabelMissed(cfg: Config, top: nat, client: nat, h: NextHop, missing: NextHop -> bool)
    returns (us: seq<Update>)
    requires client in cfg.monitored
    ensures us == [Update([Change(Label(top), Some(Entry(true, true, client, [h])))], false, missing)]
    ensures RunAll(cfg, us).Running?
    ensures var s := RunAll(cfg, us).scheduler; h !in s.useCount && h !in s.probes
    ensures |IntendedTo(cfg, TablesAfter(us), h)| == 1
  {
    var e := Entry(true, true, client, [h]);
    us := FirstEntry(cfg, Label(top), e, missing);
    assert IntendedTo(cfg, TablesAfter(us), h) == {(Label(top), 0)};
    assert CountedTo(cfg, TablesAfter(us), h) == {};
    UseCountsExact(cfg, us, h);
  }

  /** A resolved route that a monitored client adds gives its next hop a count of one and a probe,
      which runs exactly when the next hop has no neighbor entry. */
  lemma MonitoredRouteProbed(cfg: Config, table: nat, prefix: nat, client: nat, h: NextHop, missing: NextHop -> bool)
    returns (us: seq<Update>)
    requires client in cfg.monitored && !cfg.standaloneRib
    ensures us == [Update([Change(Route(table, prefix), Some(Entry(true, true, client, [h])))], false, missing)]
    ensures RunAll(cfg, us).Running?
    ensures var s := RunAll(cfg, us).scheduler;
            h in s.useCount && s.useCount[h] == 1 && h in s.probes && s.probes[h] == missing(h)
  {
    var id, e := Route(table, prefix), Entry(true, true, client, [h]);
    us := FirstEntry(cfg, id, e, missing);
    assert CountedTo(cfg, TablesAfter(us), h) == {(id, 0)};
    UseCountsExact(cfg, us, h);
    assert Matters(cfg, map[], us[0].changes, 0) && us[..0] == [];
    ProbesFollowNeighbors(cfg, us, h);
  }
}
