/** The monitor and scheduler objects behind next-hop probes. */
module ResolvedNexthopMonitor {
  import opened Wrappers
  import opened NexthopProbes

  lemma {:induction false} RemoveAllStops(s: Scheduler, hops: seq<NextHop>, n: nat)
    requires n <= |hops| && RemoveAll(s, hops[..n]).CheckFailed?
    ensures RemoveAll(s, hops).CheckFailed?
    decreases |hops|
  {
    if n < |hops| {
      assert hops[..|hops| - 1][..n] == hops[..n];
      RemoveAllStops(s, hops[..|hops| - 1], n);
    } else {
      assert hops[..n] == hops;
    }
  }

  class ProbeScheduler {
    var useCount: map<NextHop, int>
    var probes: map<NextHop, bool>

    function Value(): Scheduler
      reads this
    {
      Scheduler(useCount, probes)
    }

    constructor ()
      ensures Value() == Scheduler(map[], map[])
    {
      useCount, probes := map[], map[];
    }

    method Use(h: NextHop)
      modifies this
      ensures Value() == AddOne(old(Value()), h)
    {
      if h !in useCount {
        useCount := useCount[h := 1];
        if h !in probes {
          probes := probes[h := false];
        }
      } else {
        useCount := useCount[h := useCount[h] + 1];
      }
    }

    method Release(h: NextHop) returns (ok: bool)
      modifies this
      ensures ok == RemoveOne(old(Value()), h).Running?
      ensures ok ==> Running(Value()) == RemoveOne(old(Value()), h)
    {
      if h !in useCount { return false; }
      if useCount[h] == 1 {
        useCount := useCount - {h};
        probes := probes - {h};
      } else {
        useCount := useCount[h := useCount[h] - 1];
      }
      return true;
    }

    /** `ok` is false when the CHECK on removal fails. */
    method ProcessChangedResolvedNexthops(added: seq<NextHop>, removed: seq<NextHop>) returns (ok: bool)
      modifies this
      ensures ok == ProcessChanged(old(Value()), added, removed).Running?
      ensures ok ==> Running(Value()) == ProcessChanged(old(Value()), added, removed)
    {
      ghost var start := Value();
      var i := 0;
      while i < |added|
        invariant 0 <= i <= |added| && Value() == AddAll(start, added[..i])
      {
        assert added[..i + 1][..i] == added[..i];
        Use(added[i]);
        i := i + 1;
      }
      assert added[..i] == added;
      ok := ReleaseAll(removed);
    }

    method ReleaseAll(removed: seq<NextHop>) returns (ok: bool)
      modifies this
      ensures ok == RemoveAll(old(Value()), removed).Running?
      ensures ok ==> Running(Value()) == RemoveAll(old(Value()), removed)
    {
      ghost var start := Value();
      var j := 0;
      while j < |removed|
        invariant 0 <= j <= |removed| && Running(Value()) == RemoveAll(start, removed[..j])
      {
        assert removed[..j + 1][..j] == removed[..j];
        ok := Release(removed[j]);
        if !ok {
          RemoveAllStops(start, removed, j + 1);
          return;
        }
        j := j + 1;
      }
      assert removed[..j] == removed;
      ok := true;
    }

    /** Start each probe whose next hop has no neighbor entry and stop the others. */
    method Schedule(missing: NextHop -> bool)
      modifies this
      ensures Value() == Scheduled(old(Value()), missing)
    {
      ghost var start := probes;
      var todo := useCount.Keys;
      while todo != {}
        invariant todo <= useCount.Keys && useCount == old(useCount)
        invariant probes == start + map h | h in useCount.Keys - todo :: missing(h)
        decreases |todo|
      {
        var h :| h in todo;
        probes := probes[h := missing(h)];
        todo := todo - {h};
      }
      assert useCount.Keys - {} == useCount.Keys;
      assert probes == start + map h | h in useCount :: missing(h);
    }
  }

  /** A change as an observer sees it, with the entry it replaces. */
  datatype Seen = Seen(id: Id, was: Option<Entry>, now: Option<Entry>)

  function ChangesOf(seen: seq<Seen>): seq<Change>
  {
    seq(|seen|, i requires 0 <= i < |seen| => Change(seen[i].id, seen[i].now))
  }

  /** Each change replaces what the changes before it left. */
  ghost predicate Follows(t: Tables, seen: seq<Seen>)
  {
    forall i | 0 <= i < |seen| :: seen[i].was == Lookup(After(t, ChangesOf(seen)[..i]), seen[i].id)
  }

  class Monitor {
    const cfg: Config
    const scheduler: ProbeScheduler
    var added: seq<NextHop>
    var removed: seq<NextHop>

    constructor (cfg: Config, scheduler: ProbeScheduler)
      ensures this.cfg == cfg && this.scheduler == scheduler && added == [] && removed == []
    {
      this.cfg, this.scheduler := cfg, scheduler;
      added, removed := [], [];
    }

    method ProcessAdded(id: Id, e: Entry)
      modifies this
      ensures added == old(added) + References(cfg, id, Some(e)) && removed == old(removed)
    {
      if Skips(cfg, id, e) { return; }
      var i := 0;
      while i < |e.hops|
        invariant 0 <= i <= |e.hops| && added == old(added) + e.hops[..i] && removed == old(removed)
      {
        added := added + [e.hops[i]];
        i := i + 1;
      }
    }

    method ProcessRemoved(id: Id, e: Entry)
      modifies this
      ensures removed == old(removed) + References(cfg, id, Some(e)) && added == old(added)
    {
      if Skips(cfg, id, e) { return; }
      var i := 0;
      while i < |e.hops|
        invariant 0 <= i <= |e.hops| && removed == old(removed) + e.hops[..i] && added == old(added)
      {
        removed := removed + [e.hops[i]];
        i := i + 1;
      }
    }

    /** A change is a removal of the old entry and an addition of the new one. */
    method Process(c: Seen)
      modifies this
      ensures added == old(added) + References(cfg, c.id, c.now)
      ensures removed == old(removed) + References(cfg, c.id, c.was)
    {
      if c.was.Some? {
        ProcessRemoved(c.id, c.was.value);
      }
      if c.now.Some? {
        ProcessAdded(c.id, c.now.value);
      }
    }

    method Collect(ghost t: Tables, seen: seq<Seen>)
      requires Follows(t, seen) && added == [] && removed == []
      modifies this
      ensures added == Added(cfg, ChangesOf(seen)) && removed == Removed(cfg, t, ChangesOf(seen))
    {
      ghost var cs := ChangesOf(seen);
      var i := 0;
      while i < |seen|
        invariant 0 <= i <= |seen| && added == Added(cfg, cs[..i]) && removed == Removed(cfg, t, cs[..i])
      {
        assert cs[..i + 1][..i] == cs[..i];
        Process(seen[i]);
        i := i + 1;
      }
      assert cs[..i] == cs;
    }

    /** `stateUpdated`. */
    method StateUpdated(ghost t: Tables, seen: seq<Seen>, neighborsChanged: bool, missing: NextHop -> bool)
      returns (ok: bool)
      requires Follows(t, seen) && added == [] && removed == []
      modifies this, scheduler
      ensures ok == Step(old(scheduler.Value()), cfg, t, Update(ChangesOf(seen), neighborsChanged, missing)).Running?
      ensures ok ==>
                && added == [] && removed == []
                && Running(scheduler.Value())
                   == Step(old(scheduler.Value()), cfg, t, Update(ChangesOf(seen), neighborsChanged, missing))
    {
      var scheduleProbes := neighborsChanged;
      Collect(t, seen);
      ok := true;
      if added != [] || removed != [] {
        scheduleProbes := true;
        ok := scheduler.ProcessChangedResolvedNexthops(added, removed);
        if !ok { return; }
        added, removed := [], [];
      }
      if scheduleProbes {
        scheduler.Schedule(missing);
      }
    }
  }
}
