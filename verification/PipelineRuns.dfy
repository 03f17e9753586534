/** What every run of the state-update pipeline keeps. */
module PipelineRuns {
  import opened StatePipeline

  /** The contents an update turns contents `c` into, apart from handles and batches. */
  function After(u: Update, c: Content): Content
  {
    match u
    case Recovery(desired, _) => desired.content
    case Ordinary(_, _, fn) =>
      match fn(c)
      case Changed(content) => content
      case Stored(state) => state.content
      case _ => c
  }

  /** The left fold of updates in order: the specification of the whole pipeline. */
  function Meaning(us: seq<Update>, c: Content): Content
  {
    if us == [] then c else After(us[|us| - 1], Meaning(us[..|us| - 1], c))
  }

  /** Updates that only ever return null, their argument or a fresh copy. */
  ghost predicate CopyOnWrite(u: Update)
  {
    u.Ordinary? ==> forall c :: !u.fn(c).Stored?
  }

  // ---- folds ----

  lemma {:induction false} FoldMeaning(us: seq<Update>, p: Progress)
    ensures Fold(us, p).state.content == Meaning(us, p.state.content)
  {
    if us != [] {
      FoldMeaning(us[..|us| - 1], p);
    }
  }

  lemma {:induction false} MeaningConcat(a: seq<Update>, b: seq<Update>, c: Content)
    ensures Meaning(a + b, c) == Meaning(b, Meaning(a, c))
  {
    if b == [] {
      assert a + b == a;
    } else {
      assert (a + b)[..|a + b| - 1] == a + b[..|b| - 1];
      MeaningConcat(a, b[..|b| - 1], c);
    }
  }

  /** A recovery in front makes the fold start from what it carries. */
  lemma MeaningFromRecovery(us: seq<Update>, c: Content)
    requires us != [] && us[0].Recovery?
    ensures Meaning(us, c) == Meaning(us[1..], us[0].desired.content)
  {
    assert us == [us[0]] + us[1..];
    MeaningConcat([us[0]], us[1..], c);
    assert [us[0]][..0] == [];
    assert Meaning([us[0]], c) == us[0].desired.content;
  }

  lemma {:induction false} FoldNext(us: seq<Update>, p: Progress)
    ensures Fold(us, p).next >= p.next
  {
    if us != [] {
      FoldNext(us[..|us| - 1], p);
    }
  }

  predicate RecoveryOnlyFirst(us: seq<Update>)
  {
    forall i | 0 < i < |us| :: us[i].Ordinary?
  }

  /** Copy-on-write updates leave the handle alone or make a new one of a later generation; a
      recovery always makes a new one. */
  lemma {:induction false} FoldFresh(us: seq<Update>, p: Progress)
    requires RecoveryOnlyFirst(us) && forall u | u in us :: CopyOnWrite(u)
    requires us != [] && us[0].Recovery? ==> us[0].applied == p.state
    ensures
      var r := Fold(us, p).state;
      || (r == p.state && (us != [] ==> us[0].Ordinary?))
      || (r.node >= p.next && r.generation > p.state.generation)
  {
    if us != [] {
      var before := us[..|us| - 1];
      assert forall u | u in before :: u in us;
      FoldFresh(before, p);
      FoldNext(before, p);
      assert us[|us| - 1] in us;
      assert CopyOnWrite(us[|us| - 1]);
    }
  }

  // ---- the invariant ----

  /** Updates not yet folded in, in the order they will be. */
  function Pending(w: World): seq<Update>
  {
    w.batch + w.queue
  }

  predicate HasRecovery(w: World)
  {
    Pending(w) != [] && Pending(w)[0].Recovery?
  }

  /** The contents the pipeline has accepted: those of `desired`, or what recovery carries. */
  function Accepted(w: World): Content
  {
    if HasRecovery(w) then Pending(w)[0].desired.content else w.desired.content
  }

  ghost predicate Numbered(us: seq<Update>)
  {
    forall i | 0 <= i < |us| :: us[i].Ordinary? && us[i].id == i
  }

  /** Arrival order is kept: what is pending is exactly the unhandled suffix. */
  ghost predicate InOrder(w: World)
  {
    && RecoveryOnlyFirst(Pending(w)) && Numbered(w.arrived)
    && w.handled <= |w.arrived| && w.arrived[w.handled..] == OrdinaryOf(Pending(w))
  }

  /** Applied and desired are the same handle exactly when no recovery is pending, and a pending
      recovery carries the desired state and starts from the applied one. */
  predicate InSync(w: World)
  {
    if HasRecovery(w) then
      && Pending(w)[0].applied == w.applied && Pending(w)[0].desired != w.applied
      && (!w.exiting ==> Pending(w)[0].desired == w.desired)
    else w.applied == w.desired
  }

  predicate Folded(w: World, c0: Content)
    requires w.handled <= |w.arrived|
  {
    Accepted(w) == Meaning(w.arrived[..w.handled], c0)
  }

  predicate EnoughWakeups(w: World)
  {
    w.wakeups + w.unsignalled >= |OrdinaryOf(w.queue)|
  }

  ghost predicate Ordered(w: World)
  {
    InOrder(w) && EnoughWakeups(w)
  }

  ghost predicate Inv(w: World, c0: Content)
  {
    Ordered(w) && InSync(w) && Folded(w, c0) && w.applied.node < w.next
  }

  /** Steps that move updates but neither fold nor add any. */
  lemma SamePending(w: World, w': World, c0: Content)
    requires Ordered(w) && Pending(w') == Pending(w) && EnoughWakeups(w')
    requires w'.arrived == w.arrived && w'.handled == w.handled && w'.next == w.next
    requires w'.applied == w.applied && w'.desired == w.desired && (w.exiting ==> w'.exiting)
    ensures Ordered(w') && (Inv(w, c0) ==> Inv(w', c0))
  {
  }

  lemma PushOrdinary(us: seq<Update>, u: Update)
    requires RecoveryOnlyFirst(us) && u.Ordinary?
    ensures RecoveryOnlyFirst(us + [u]) && OrdinaryOf(us + [u]) == OrdinaryOf(us) + [u]
  {
    if us == [] {
      assert us + [u] == [u];
    } else {
      assert (us + [u])[1..] == us[1..] + [u];
    }
  }

  lemma PushKeeps(w: World, c0: Content, coalesces: bool, fn: Content -> Result)
    requires Ordered(w)
    ensures var w' := Pushed(w, coalesces, fn); Ordered(w') && (Inv(w, c0) ==> Inv(w', c0))
  {
    var w' := Pushed(w, coalesces, fn);
    var u := w'.arrived[|w.arrived|];
    assert Pending(w') == Pending(w) + [u];
    PushOrdinary(Pending(w), u);
    assert w'.arrived[w.handled..] == w.arrived[w.handled..] + [u];
    assert w'.arrived[..w.handled] == w.arrived[..w.handled];
  }

  lemma SpliceTakesOne(queue: seq<Update>)
    requires RecoveryOnlyFirst(queue)
    ensures var rest := |OrdinaryOf(queue[Pulled(queue)..])|;
            rest == 0 || rest < |OrdinaryOf(queue)|
  {
    var n := Pulled(queue);
    if 0 < n < |queue| {
      assert queue[n - 1].Ordinary?;
    }
  }

  lemma SpliceKeeps(w: World, c0: Content)
    requires Ordered(w) && w.wakeups > 0 && w.batch == []
    ensures Ordered(Spliced(w)) && (Inv(w, c0) ==> Inv(Spliced(w), c0))
  {
    SplicedPending(w);
    assert EnoughWakeups(Spliced(w)) by { SplicedWakeups(w); }
    SamePending(w, Spliced(w), c0);
  }

  /** A splice moves updates from the queue to the batch and drops none. */
  lemma SplicedPending(w: World)
    requires w.wakeups > 0 && w.batch == []
    ensures Pending(Spliced(w)) == Pending(w) == w.queue
  {
    var n := Pulled(w.queue);
    assert w.queue[..n] + w.queue[n..] == w.queue && [] + w.queue == w.queue;
  }

  lemma SplicedWakeups(w: World)
    requires RecoveryOnlyFirst(w.queue) && EnoughWakeups(w) && w.wakeups > 0
    ensures EnoughWakeups(Spliced(w))
  {
    SpliceTakesOne(w.queue);
  }

  /** Handling a batch takes its ordinary updates off the front of what is pending. */
  lemma FinishAdvances(w: World)
    requires InOrder(w) && w.batch != []
    ensures forall i | 0 <= i < |w.queue| :: w.queue[i].Ordinary?
    ensures var n := w.handled + |OrdinaryOf(w.batch)|;
            && n <= |w.arrived| && w.arrived[n..] == w.queue
            && w.arrived[..n] == w.arrived[..w.handled] + OrdinaryOf(w.batch)
  {
    var b := OrdinaryOf(w.batch);
    var n := w.handled + |b|;
    assert Pending(w)[0] == w.batch[0];
    assert OrdinaryOf(Pending(w)) == b + w.queue;
    forall i | 0 <= i < |w.queue| ensures w.queue[i].Ordinary? {
      assert w.queue[i] == Pending(w)[|w.batch| + i];
    }
    assert w.arrived[w.handled..][..|b|] == b && w.arrived[w.handled..][|b|..] == w.queue;
  }

  lemma FinishKeepsOrder(w: World, w': World)
    requires Ordered(w) && w.batch != [] && w'.batch == []
    requires w'.queue == w.queue || (w'.queue != [] && w'.queue[0].Recovery? && w'.queue[1..] == w.queue)
    requires w'.arrived == w.arrived && w'.handled == w.handled + |OrdinaryOf(w.batch)|
    requires w'.wakeups == w.wakeups && w'.unsignalled == w.unsignalled
    ensures Ordered(w') && OrdinaryOf(w'.queue) == w.queue
  {
    FinishAdvances(w);
    assert Pending(w') == w'.queue;
  }

  /** A batch ends at the fold of everything handled so far and of its own updates. */
  lemma FinishMeaning(w: World, c0: Content)
    requires Inv(w, c0) && w.batch != []
    ensures var n := w.handled + |OrdinaryOf(w.batch)|;
            n <= |w.arrived| && Meaning(w.arrived[..n], c0) == Target(w).content
  {
    FinishAdvances(w);
    MeaningConcat(w.arrived[..w.handled], OrdinaryOf(w.batch), c0);
    FoldMeaning(w.batch, Start(w));
    assert Pending(w)[0] == w.batch[0];
    if w.batch[0].Recovery? {
      MeaningFromRecovery(w.batch, w.applied.content);
    }
  }

  /** What one batch does to everything but the applied and desired states and the next node. */
  lemma FinishFields(w: World, hw: State)
    ensures var w' := Finished(w, hw);
            && w'.batch == [] && w'.arrived == w.arrived && w'.handled == w.handled + |OrdinaryOf(w.batch)|
            && w'.wakeups == w.wakeups && w'.unsignalled == w.unsignalled && w'.exiting == w.exiting
            && (w'.queue == w.queue || (w'.queue != [] && w'.queue[0].Recovery? && w'.queue[1..] == w.queue))
            && w'.completions == w.completions + BatchCompletions(w.batch, Start(w))
    ensures Target(w) != w.applied && !w.exiting ==>
              var w' := Finished(w, hw);
              w'.deltas == w.deltas + [Delta(w.applied, Target(w))] && w'.desired == Target(w)
  {
    var f, r := Failures(w.batch, Start(w)), Successes(Remaining(w.batch, Start(w)));
    assert w.completions + f + r == w.completions + (f + r);
  }

  /** The guard of the branch that hands a batch to hardware is false although a recovery was
      taken off the queue: the batch ends at the very handle it started from. */
  predicate DropsRecovery(w: World)
  {
    w.batch != [] && w.batch[0].Recovery? && Target(w) == w.applied
  }

  lemma FinishSyncs(w: World, hw: State)
    requires InOrder(w) && InSync(w) && w.batch != [] && !DropsRecovery(w)
    ensures InSync(Finished(w, hw)) && Accepted(Finished(w, hw)) == Target(w).content
  {
    assert w.queue != [] ==> w.queue[0].Ordinary? by { FinishAdvances(w); }
    if Target(w) == w.applied {
      NothingApplied(w, hw);
    } else {
      SyncedBy(Finished(w, hw), Target(w), w.queue);
    }
  }

  /** A batch that ends where it began, and took no recovery, leaves both states alone. */
  lemma NothingApplied(w: World, hw: State)
    requires InSync(w) && w.batch != [] && w.batch[0].Ordinary? && Target(w) == w.applied
    requires w.queue != [] ==> w.queue[0].Ordinary?
    ensures InSync(Finished(w, hw)) && Accepted(Finished(w, hw)) == w.applied.content
  {
    assert Pending(w)[0] == w.batch[0];
    assert Pending(Finished(w, hw)) == w.queue;
  }

  /** A recovery is in front exactly when hardware did not follow, and carries the target. */
  lemma SyncedBy(w: World, target: State, queue: seq<Update>)
    requires w.batch == [] && (queue != [] ==> queue[0].Ordinary?)
    requires (w.desired == target || (w.exiting && w.applied != target))
    requires w.queue == if w.applied != target then [Recovery(target, w.applied)] + queue else queue
    ensures InSync(w) && Accepted(w) == target.content
  {
    assert Pending(w) == w.queue;
  }

  lemma FinishKeeps(w: World, c0: Content, hw: State)
    requires Inv(w, c0) && w.batch != [] && !DropsRecovery(w)
    ensures Inv(Finished(w, hw), c0)
  {
    FinishFields(w, hw);
    FinishKeepsOrder(w, Finished(w, hw));
    FinishSyncs(w, hw);
    FinishMeaning(w, c0);
    FoldNext(w.batch, Start(w));
  }

  /** Exactly when a batch keeps the invariant: unless it drops a recovery. Dropping one leaves
      applied and desired apart with nothing queued to bring them together. */
  lemma FinishKeepsExactly(w: World, c0: Content, hw: State)
    requires Inv(w, c0) && w.batch != [] && !w.exiting
    ensures Inv(Finished(w, hw), c0) <==> !DropsRecovery(w)
    ensures DropsRecovery(w) ==>
              var w' := Finished(w, hw); w'.applied != w'.desired && !HasRecovery(w')
  {
    if DropsRecovery(w) {
      var w' := Finished(w, hw);
      FinishAdvances(w);
      assert Pending(w)[0] == w.batch[0];
      assert Pending(w') == w.queue;
    } else {
      FinishKeeps(w, c0, hw);
    }
  }

  ghost predicate AllCopyOnWrite(us: seq<Update>)
  {
    forall u | u in us :: CopyOnWrite(u)
  }

  /** Copy-on-write updates never drop a recovery, and what they ask of hardware is of a later
      generation than what it runs. */
  lemma CopyOnWriteBatch(w: World)
    requires InOrder(w) && InSync(w) && w.batch != [] && AllCopyOnWrite(w.arrived)
    ensures !DropsRecovery(w)
    ensures Target(w) != w.applied ==> Target(w).generation > w.applied.generation
  {
    assert Pending(w)[0] == w.batch[0];
    assert forall i | 0 <= i < |w.batch| :: w.batch[i] == Pending(w)[i];
    forall u | u in w.batch ensures CopyOnWrite(u) {
      if u.Ordinary? {
        FinishAdvances(w);
        assert u in OrdinaryOf(w.batch);
        assert u in w.arrived[..w.handled + |OrdinaryOf(w.batch)|];
      }
    }
    FoldFresh(w.batch, Start(w));
  }

  // ---- runs ----

  lemma StepKeeps(w: World, e: Event, c0: Content)
    requires Ordered(w) && Enabled(w, e)
    ensures Ordered(Step(w, e))
    ensures Inv(w, c0) && !(e.Finish? && DropsRecovery(w)) ==> Inv(Step(w, e), c0)
  {
    match e
    case Push(coalesces, fn) => PushKeeps(w, c0, coalesces, fn);
    case Signal => SamePending(w, Step(w, e), c0);
    case Splice => SpliceKeeps(w, c0);
    case Finish(hw) =>
      FinishFields(w, hw);
      FinishKeepsOrder(w, Finished(w, hw));
      if Inv(w, c0) && !DropsRecovery(w) {
        FinishKeeps(w, c0, hw);
      }
    case Exit => SamePending(w, Step(w, e), c0);
  }

  lemma {:induction false} RunOrdered(worlds: seq<World>, events: seq<Event>, i: nat)
    requires IsRun(worlds, events) && i < |worlds|
    ensures Ordered(worlds[i])
  {
    if i > 0 {
      RunOrdered(worlds, events, i - 1);
      assert StepsTo(worlds[i - 1], events[i - 1], worlds[i]);
      StepKeeps(worlds[i - 1], events[i - 1], worlds[0].desired.content);
    }
  }

  /** No batch of the run drops a recovery. */
  ghost predicate KeepsRecoveries(worlds: seq<World>, events: seq<Event>)
    requires IsRun(worlds, events)
  {
    forall i | 0 <= i < |events| :: !(events[i].Finish? && DropsRecovery(worlds[i]))
  }

  lemma {:induction false} RunInv(worlds: seq<World>, events: seq<Event>, i: nat)
    requires IsRun(worlds, events) && i < |worlds| && KeepsRecoveries(worlds, events)
    ensures Inv(worlds[i], worlds[0].desired.content)
  {
    if i > 0 {
      RunInv(worlds, events, i - 1);
      assert StepsTo(worlds[i - 1], events[i - 1], worlds[i]);
      StepKeeps(worlds[i - 1], events[i - 1], worlds[0].desired.content);
    }
  }

  /** For a run that never exits, the invariant holds throughout exactly when no batch drops a
      recovery. */
  lemma RunInvExactly(worlds: seq<World>, events: seq<Event>)
    requires IsRun(worlds, events) && forall i | 0 <= i < |worlds| :: !worlds[i].exiting
    ensures KeepsRecoveries(worlds, events) <==>
            forall i | 0 <= i < |worlds| :: Inv(worlds[i], worlds[0].desired.content)
  {
    if KeepsRecoveries(worlds, events) {
      forall i | 0 <= i < |worlds| ensures Inv(worlds[i], worlds[0].desired.content) {
        RunInv(worlds, events, i);
      }
    } else {
      var i :| 0 <= i < |events| && events[i].Finish? && DropsRecovery(worlds[i]);
      if Inv(worlds[i], worlds[0].desired.content) {
        FinishKeepsExactly(worlds[i], worlds[0].desired.content, events[i].hw);
        assert !Inv(worlds[i + 1], worlds[0].desired.content);
      }
    }
  }

  ghost predicate PushesCopyOnWrite(e: Event)
  {
    e.Push? ==> forall c :: !e.fn(c).Stored?
  }

  ghost predicate CopyOnWriteRun(worlds: seq<World>, events: seq<Event>)
  {
    IsRun(worlds, events) && forall i | 0 <= i < |events| :: PushesCopyOnWrite(events[i])
  }

  lemma {:induction false} ArrivalsCopyOnWrite(worlds: seq<World>, events: seq<Event>, i: nat)
    requires CopyOnWriteRun(worlds, events) && i < |worlds|
    ensures AllCopyOnWrite(worlds[i].arrived)
  {
    if i > 0 {
      ArrivalsCopyOnWrite(worlds, events, i - 1);
    }
  }

  lemma CopyOnWriteNeverDrops(worlds: seq<World>, events: seq<Event>, i: nat)
    requires CopyOnWriteRun(worlds, events) && i < |events| && events[i].Finish?
    requires Inv(worlds[i], worlds[0].desired.content)
    ensures !DropsRecovery(worlds[i])
  {
    ArrivalsCopyOnWrite(worlds, events, i);
    assert StepsTo(worlds[i], events[i], worlds[i + 1]);
    CopyOnWriteBatch(worlds[i]);
  }

  /** Runs whose updates all copy on write keep the invariant. */
  lemma {:induction false} CopyOnWriteInv(worlds: seq<World>, events: seq<Event>, i: nat)
    requires CopyOnWriteRun(worlds, events) && i < |worlds|
    ensures Inv(worlds[i], worlds[0].desired.content)
  {
    if i > 0 {
      CopyOnWriteInv(worlds, events, i - 1);
      var w, e := worlds[i - 1], events[i - 1];
      assert !(e.Finish? && DropsRecovery(w)) by {
        if e.Finish? {
          CopyOnWriteNeverDrops(worlds, events, i - 1);
        }
      }
      StepKeeps(w, e, worlds[0].desired.content);
    }
  }

  /** So they never drop a recovery. */
  lemma CopyOnWriteKeepsRecoveries(worlds: seq<World>, events: seq<Event>)
    requires CopyOnWriteRun(worlds, events)
    ensures KeepsRecoveries(worlds, events)
  {
    forall i | 0 <= i < |events| ensures !(events[i].Finish? && DropsRecovery(worlds[i])) {
      CopyOnWriteInv(worlds, events, i);
      if events[i].Finish? {
        CopyOnWriteNeverDrops(worlds, events, i);
      }
    }
  }

  /** Between batches, and until the switch exits, desired is the left fold of every handled
      update in arrival order; and applied differs from desired exactly when the queue's head is
      a recovery update, which then carries desired and is the only one. */
  lemma DesiredIsFold(worlds: seq<World>, events: seq<Event>, i: nat)
    requires IsRun(worlds, events) && i < |worlds| && KeepsRecoveries(worlds, events)
    requires worlds[i].batch == [] && !worlds[i].exiting
    ensures var w := worlds[i];
            && w.handled <= |w.arrived|
            && w.desired.content == Meaning(w.arrived[..w.handled], worlds[0].desired.content)
            && (w.applied != w.desired <==> w.queue != [] && w.queue[0].Recovery?)
            && (w.queue != [] && w.queue[0].Recovery? ==> w.queue[0].desired == w.desired)
            && forall k | 0 < k < |w.queue| :: w.queue[k].Ordinary?
  {
    RunInv(worlds, events, i);
    assert Pending(worlds[i]) == worlds[i].queue;
  }

  /** Even while exiting nothing accepted is lost: what desired says, or what the pending recovery
      carries once hardware is no longer called, is the fold. */
  lemma AcceptedIsFold(worlds: seq<World>, events: seq<Event>, i: nat)
    requires IsRun(worlds, events) && i < |worlds| && KeepsRecoveries(worlds, events)
    ensures var w := worlds[i];
            w.handled <= |w.arrived| && Accepted(w) == Meaning(w.arrived[..w.handled], worlds[0].desired.content)
  {
    RunInv(worlds, events, i);
  }

  /** A batch that changes anything asks, exiting or not, for a state of a later generation than the
      applied one; unless exiting, hardware is given the delta between the two and nothing else. */
  lemma DeltasGoForward(worlds: seq<World>, events: seq<Event>, i: nat)
    requires CopyOnWriteRun(worlds, events) && i < |events| && events[i].Finish?
    ensures var w, w' := worlds[i], worlds[i + 1];
            && (Target(w) != w.applied ==> Target(w).generation > w.applied.generation)
            && w'.deltas == w.deltas + if Target(w) == w.applied || w.exiting then [] else [Delta(w.applied, Target(w))]
  {
    CopyOnWriteInv(worlds, events, i);
    ArrivalsCopyOnWrite(worlds, events, i);
    assert StepsTo(worlds[i], events[i], worlds[i + 1]);
    CopyOnWriteBatch(worlds[i]);
  }

  lemma FoldOne(u: Update, p: Progress)
    ensures Fold([u], p) == Apply(u, p)
  {
    assert [u][..0] == [];
  }

  lemma FoldTwo(u: Update, v: Update, p: Progress)
    ensures Fold([u, v], p) == Apply(v, Apply(u, p))
  {
    assert [u, v][..1] == [u];
    FoldOne(u, p);
  }

  /** A push, its wake-up and the batch it starts, when at most a recovery was queued. */
  function Taken(w: World, fn: Content -> Result): World
    requires w.batch == []
  {
    Spliced(Pushed(w, true, fn).(unsignalled := w.unsignalled, wakeups := w.wakeups + 1))
  }

  lemma TakenBatch(w: World, fn: Content -> Result)
    requires w.batch == [] && |w.queue| <= 1 && forall u | u in w.queue :: u.Recovery?
    ensures var u := Ordinary(|w.arrived|, true, fn);
            Taken(w, fn) == w.(batch := w.queue + [u], queue := [], arrived := w.arrived + [u])
  {
    var q := w.queue + [Ordinary(|w.arrived|, true, fn)];
    if |w.queue| == 1 {
      assert w.queue[0] in w.queue;
    }
    assert Pulled(q) == |q|;
    assert q[..|q|] == q && q[|q|..] == [];
  }

  /** Hardware runs `s0` and refuses the change to `c1`. */
  lemma Refused(w: World, s0: State, c1: Content, u: Update)
    requires w.batch == [u] && u == Ordinary(0, true, (_: Content) => Changed(c1)) && w.queue == []
    requires w.applied == s0 && w.next == 1 && s0.node == 0 && s0.generation == 0 && !w.exiting && w.handled == 0
    ensures var w', t := Finished(w, s0), State(1, 1, c1);
            && w'.applied == s0 && w'.desired == t && w'.queue == [Recovery(t, s0)] && w'.batch == []
            && w'.arrived == w.arrived && w'.handled == 1 && !w'.exiting
  {
    FoldOne(u, Start(w));
  }

  lemma Returned(w: World, s0: State, t: State, v: Update)
    requires w.batch == [Recovery(t, s0), v] && v == Ordinary(1, true, (_: Content) => Stored(s0)) && w.queue == []
    requires w.applied == s0 && w.desired == t && !w.exiting && w.handled == 1
    ensures DropsRecovery(w)
    ensures var w' := Finished(w, s0);
            && w'.applied == s0 && w'.desired == t && w'.queue == [] && w'.batch == []
            && w'.arrived == w.arrived && w'.handled == 2 && !w'.exiting
  {
    FoldTwo(Recovery(t, s0), v, Start(w));
  }

  lemma BackAgain(c0: Content, s0: State, u: Update, v: Update)
    requires u.Ordinary? && v == Ordinary(1, true, (_: Content) => Stored(s0)) && s0.content == c0
    ensures Meaning([u, v], c0) == c0
  {
  }

  lemma Extend(worlds: seq<World>, events: seq<Event>, e: Event)
    requires IsRun(worlds, events) && Enabled(worlds[|events|], e)
    ensures IsRun(worlds + [Step(worlds[|events|], e)], events + [e])
  {
  }

  lemma ExtendToBatch(worlds: seq<World>, events: seq<Event>, fn: Content -> Result)
    returns (worlds': seq<World>, events': seq<Event>)
    requires IsRun(worlds, events) && worlds[|events|].batch == []
    ensures IsRun(worlds', events') && worlds'[|events'|] == Taken(worlds[|events|], fn)
  {
    var w := worlds[|events|];
    var w1 := Pushed(w, true, fn);
    Extend(worlds, events, Push(true, fn));
    worlds', events' := worlds + [w1], events + [Push(true, fn)];
    var w2 := Step(w1, Signal);
    Extend(worlds', events', Signal);
    worlds', events' := worlds' + [w2], events' + [Signal];
    Extend(worlds', events', Splice);
    worlds', events' := worlds' + [Step(w2, Splice)], events' + [Splice];
  }

  /** A run that drops a recovery: hardware refuses the change the first update makes, then the
      second returns the handle hardware still runs. Desired stays at the first update's output,
      which is neither applied nor the fold of the two updates, and nothing is queued. */
  lemma RecoveryDropped(c0: Content, c1: Content) returns (worlds: seq<World>, events: seq<Event>)
    requires c0 != c1
    ensures IsRun(worlds, events) && !KeepsRecoveries(worlds, events)
    ensures var w := worlds[|events|];
            && !w.exiting && w.batch == [] && w.queue == [] && w.handled == |w.arrived| == 2
            && w.applied != w.desired && w.desired.content == c1 && Meaning(w.arrived, c0) == c0
  {
    var s0, t := State(0, 0, c0), State(1, 1, c1);
    var w0 := World(s0, s0, [], [], 1, 0, 0, false, [], 0, [], []);
    var change: Content -> Result := _ => Changed(c1);
    var back: Content -> Result := _ => Stored(s0);
    var u, v := Ordinary(0, true, change), Ordinary(1, true, back);
    worlds, events := [w0], [];
    worlds, events := ExtendToBatch(worlds, events, change);
    var w1 := Taken(w0, change);
    TakenBatch(w0, change);
    assert w1.batch == [u];
    Refused(w1, s0, c1, u);
    var w2 := Finished(w1, s0);
    Extend(worlds, events, Finish(s0));
    worlds, events := worlds + [w2], events + [Finish(s0)];
    worlds, events := ExtendToBatch(worlds, events, back);
    var w3 := Taken(w2, back);
    TakenBatch(w2, back);
    assert w3.batch == [Recovery(t, s0), v];
    Returned(w3, s0, t, v);
    Extend(worlds, events, Finish(s0));
    assert w3.arrived == [u, v];
    BackAgain(c0, s0, u, v);
    ghost var k := |events|;
    worlds, events := worlds + [Finished(w3, s0)], events + [Finish(s0)];
    assert events[k].Finish? && DropsRecovery(worlds[k]);
  }

  // ---- wake-ups ----

  /** A wake-up for every pending ordinary update: when none remains and no push is half done,
      everything that arrived was handled and at most a recovery is queued. */
  lemma NoLostUpdates(worlds: seq<World>, events: seq<Event>, i: nat)
    requires IsRun(worlds, events) && i < |worlds|
    ensures EnoughWakeups(worlds[i])
    ensures worlds[i].wakeups == worlds[i].unsignalled == 0 && worlds[i].batch == [] ==>
              && worlds[i].handled == |worlds[i].arrived|
              && |worlds[i].queue| <= 1 && forall u | u in worlds[i].queue :: u.Recovery?
  {
    RunOrdered(worlds, events, i);
    assert worlds[i].batch == [] ==> Pending(worlds[i]) == worlds[i].queue;
  }

  function WorkLeft(w: World): nat
  {
    3 * w.unsignalled + 2 * w.wakeups + if w.batch != [] then 1 else 0
  }

  predicate IsWork(e: Event)
  {
    e.Signal? || e.Splice? || e.Finish?
  }

  /** No busy loop: without new pushes the pipeline stops after a bounded number of steps, even if
      hardware refuses every state, and it never stops early. */
  lemma {:induction false} Drains(worlds: seq<World>, events: seq<Event>, i: nat, j: nat)
    requires IsRun(worlds, events) && i <= j <= |events|
    requires forall k | i <= k < j :: IsWork(events[k])
    ensures j - i + WorkLeft(worlds[j]) <= WorkLeft(worlds[i])
    ensures WorkLeft(worlds[j]) > 0 <==> exists e :: IsWork(e) && Enabled(worlds[j], e)
  {
    if i < j {
      Drains(worlds, events, i, j - 1);
    }
    var w := worlds[j];
    if w.unsignalled > 0 {
      assert IsWork(Signal) && Enabled(w, Signal);
    } else if w.batch != [] {
      assert IsWork(Finish(w.applied)) && Enabled(w, Finish(w.applied));
    } else if w.wakeups > 0 {
      assert IsWork(Splice) && Enabled(w, Splice);
    }
  }

  // ---- barriers ----

  /** The pushes of a run, in order. */
  function Pushes(events: seq<Event>): seq<Event>
  {
    if events == [] then []
    else Pushes(events[..|events| - 1]) + if events[|events| - 1].Push? then [events[|events| - 1]] else []
  }

  ghost predicate FromPushes(us: seq<Update>, pushes: seq<Event>)
  {
    && |us| == |pushes|
    && forall k | 0 <= k < |us| :: pushes[k].Push? && us[k] == Ordinary(k, pushes[k].coalesces, pushes[k].fn)
  }

  lemma {:induction false} ArrivalsArePushes(worlds: seq<World>, events: seq<Event>, i: nat)
    requires IsRun(worlds, events) && i < |worlds|
    ensures FromPushes(worlds[i].arrived, Pushes(events[..i]))
  {
    if i > 0 {
      ArrivalsArePushes(worlds, events, i - 1);
      assert events[..i][..i - 1] == events[..i - 1] && StepsTo(worlds[i - 1], events[i - 1], worlds[i]);
    } else {
      assert events[..0] == [];
    }
  }

  /** Only the last update of a batch may refuse coalescing. */
  ghost predicate BarrierLast(w: World)
  {
    NoBarrierBefore(w.batch, |w.batch| - 1)
  }

  lemma SplicedBatch(w: World)
    requires w.wakeups > 0
    ensures BarrierLast(Spliced(w))
  {
    var n := Pulled(w.queue);
    assert forall i | 0 <= i < n :: w.queue[..n][i] == w.queue[i];
  }

  lemma {:induction false} BarriersLast(worlds: seq<World>, events: seq<Event>, i: nat)
    requires IsRun(worlds, events) && i < |worlds|
    ensures BarrierLast(worlds[i])
  {
    if i > 0 {
      BarriersLast(worlds, events, i - 1);
      assert StepsTo(worlds[i - 1], events[i - 1], worlds[i]);
      if events[i - 1].Splice? {
        SplicedBatch(worlds[i - 1]);
      }
    }
  }

  /** What an ordinary update of the current batch was pushed as. */
  lemma PushedAs(worlds: seq<World>, events: seq<Event>, i: nat, k: nat)
    requires IsRun(worlds, events) && i < |worlds| && k < |worlds[i].batch| && worlds[i].batch[k].Ordinary?
    ensures var u, pushes := worlds[i].batch[k], Pushes(events[..i]);
            u.id < |pushes| && pushes[u.id] == Push(u.coalesces, u.fn)
  {
    var w := worlds[i];
    RunOrdered(worlds, events, i);
    ArrivalsArePushes(worlds, events, i);
    assert Pending(w)[k] == w.batch[k] && Pending(w)[0] == w.batch[0];
    assert w.batch[k] in OrdinaryOf(Pending(w)) by {
      assert w.batch[k] == if w.batch[0].Recovery? then OrdinaryOf(Pending(w))[k - 1] else OrdinaryOf(Pending(w))[k];
    }
    assert w.batch[k] in w.arrived[w.handled..];
  }

  /** In every run only the last update of a batch may have been pushed as one that must not be
      coalesced. */
  lemma BatchesEndAtBarriers(worlds: seq<World>, events: seq<Event>, i: nat, k: nat)
    requires IsRun(worlds, events) && i < |worlds| && k < |worlds[i].batch| - 1 && worlds[i].batch[k].Ordinary?
    ensures var u, pushes := worlds[i].batch[k], Pushes(events[..i]);
            u.id < |pushes| && pushes[u.id] == Push(true, u.fn)
  {
    BarriersLast(worlds, events, i);
    PushedAs(worlds, events, i, k);
    assert !IsBarrier(worlds[i].batch[k]);
  }

  /** A splice takes the front of the queue, something if there is something, and leaves anything
      behind only after an update that was pushed as one that must not be coalesced. */
  lemma SplicesStopAtBarriers(worlds: seq<World>, events: seq<Event>, i: nat)
    requires IsRun(worlds, events) && i < |events| && events[i].Splice?
    ensures var w, w' := worlds[i], worlds[i + 1];
            && w.queue == w'.batch + w'.queue && (w.queue != [] ==> w'.batch != [])
            && (w'.queue != [] ==>
                  var u, pushes := w'.batch[|w'.batch| - 1], Pushes(events[..i + 1]);
                  u.Ordinary? && u.id < |pushes| && pushes[u.id] == Push(false, u.fn))
  {
    var w, w' := worlds[i], worlds[i + 1];
    assert StepsTo(w, Splice, w');
    SpliceStops(w);
    if w'.queue != [] {
      PushedAs(worlds, events, i + 1, |w'.batch| - 1);
    }
  }

  lemma SpliceStops(w: World)
    requires w.wakeups > 0
    ensures var w' := Spliced(w);
            && w.queue == w'.batch + w'.queue && (w.queue != [] ==> w'.batch != [])
            && (w'.queue != [] ==> IsBarrier(w'.batch[|w'.batch| - 1]))
  {
    var n := Pulled(w.queue);
    assert w.queue[..n] + w.queue[n..] == w.queue;
  }

  /** The handle an update returns when it is given `p`, if it returns one: its argument, a new one
      of the next generation, or one it kept. */
  predicate Yields(u: Update, p: Progress, s: State)
  {
    && u.Ordinary?
    && match u.fn(p.state.content)
       case Same => s == p.state
       case Changed(content) => s == State(p.next, p.state.generation + 1, content)
       case Stored(state) => s == state
       case _ => false
  }

  lemma LastDecides(us: seq<Update>, p: Progress, s: State)
    requires us != [] && Yields(us[|us| - 1], Fold(us[..|us| - 1], p), s)
    ensures Fold(us, p).state == s
  {
  }

  lemma LastHandled(w: World)
    requires InOrder(w) && w.batch != [] && w.batch[|w.batch| - 1].Ordinary?
    ensures var n := w.handled + |OrdinaryOf(w.batch)|;
            0 < n <= |w.arrived| && w.arrived[n - 1] == w.batch[|w.batch| - 1]
  {
    FinishAdvances(w);
    var b := OrdinaryOf(w.batch);
    assert b[|b| - 1] == w.batch[|w.batch| - 1];
    assert w.arrived[..w.handled + |b|][w.handled + |b| - 1] == b[|b| - 1];
  }

  /** The last update of the batch must not be coalesced and yields a state other than the one the
      batch started from. */
  ghost predicate EndsAtBarrier(w: World, s: State)
  {
    var n := |w.batch| - 1;
    && w.batch != [] && IsBarrier(w.batch[n]) && s != w.applied
    && Yields(w.batch[n], Fold(w.batch[..n], Start(w)), s)
  }

  /** In every run, whatever was dropped before, hardware is then given a delta that ends exactly at
      the output of that update, and nothing that came after it was looked at. */
  lemma BarrierReachesHardware(worlds: seq<World>, events: seq<Event>, i: nat, s: State)
    requires IsRun(worlds, events) && i < |events| && events[i].Finish? && !worlds[i].exiting
    requires EndsAtBarrier(worlds[i], s)
    ensures BarrierLast(worlds[i])
    ensures worlds[i + 1].deltas == worlds[i].deltas + [Delta(worlds[i].applied, s)] && worlds[i + 1].desired == s
    ensures var w := worlds[i + 1];
            0 < w.handled <= |w.arrived| && w.arrived[w.handled - 1] == worlds[i].batch[|worlds[i].batch| - 1]
  {
    var w := worlds[i];
    RunOrdered(worlds, events, i);
    BarriersLast(worlds, events, i);
    LastDecides(w.batch, Start(w), s);
    FinishFields(w, events[i].hw);
    LastHandled(w);
  }

  /** As long as no recovery was dropped, what it is given is the fold of everything up to and
      including that update. */
  lemma BarrierIsFold(worlds: seq<World>, events: seq<Event>, i: nat, s: State)
    requires IsRun(worlds, events) && KeepsRecoveries(worlds, events) && i < |events| && events[i].Finish?
    requires !worlds[i].exiting && EndsAtBarrier(worlds[i], s)
    ensures var w := worlds[i + 1];
            w.handled <= |w.arrived| && s.content == Meaning(w.arrived[..w.handled], worlds[0].desired.content)
  {
    var w := worlds[i];
    RunInv(worlds, events, i);
    LastDecides(w.batch, Start(w), s);
    FinishFields(w, events[i].hw);
    FinishMeaning(w, worlds[0].desired.content);
  }

  // ---- completions ----

  /** How update `i` must complete, given everything that arrived before it. */
  function Expected(arrived: seq<Update>, i: nat, c0: Content): Completion
    requires i < |arrived|
  {
    var u := arrived[i];
    if u.Ordinary? && u.fn(Meaning(arrived[..i], c0)).Throw? then Failed(i) else Succeeded(i)
  }

  function BatchCompletions(us: seq<Update>, p: Progress): seq<Completion>
  {
    Failures(us, p) + Successes(Remaining(us, p))
  }

  lemma SuccessesPush(us: seq<Update>, u: Update)
    ensures Successes(us + [u]) == Successes(us) + if u.Ordinary? then [Succeeded(u.id)] else []
  {
    assert (us + [u])[..|us|] == us;
  }

  function Completes(u: Update, c: Content): seq<Completion>
  {
    if u.Recovery? then [] else if u.fn(c).Throw? then [Failed(u.id)] else [Succeeded(u.id)]
  }

  lemma InTheMiddle(a: seq<Completion>, b: seq<Completion>, c: seq<Completion>)
    ensures multiset(a + b + c) == multiset(a + c) + multiset(b)
  {
  }

  /** Each update of a batch adds its own one completion and touches no other. */
  lemma BatchCompletionsStep(us: seq<Update>, u: Update, p: Progress)
    ensures multiset(BatchCompletions(us + [u], p))
         == multiset(BatchCompletions(us, p)) + multiset(Completes(u, Fold(us, p).state.content))
  {
    var c, f, r := Fold(us, p).state.content, Failures(us, p), Remaining(us, p);
    LoopStep(us, u, p);
    if Raises(u, c) {
      assert r + [] == r;
      InTheMiddle(f, [Failed(u.id)], Successes(r));
    } else {
      assert f + [] == f;
      SuccessesPush(r, u);
      AtTheEnd(f, Successes(r), Completes(u, c));
    }
  }

  lemma LoopStep(us: seq<Update>, u: Update, p: Progress)
    ensures var raises := Raises(u, Fold(us, p).state.content);
            && Failures(us + [u], p) == Failures(us, p) + (if raises then [Failed(u.id)] else [])
            && Remaining(us + [u], p) == Remaining(us, p) + (if raises then [] else [u])
  {
    assert (us + [u])[..|us|] == us;
  }

  lemma AtTheEnd(a: seq<Completion>, b: seq<Completion>, c: seq<Completion>)
    ensures multiset(a + (b + c)) == multiset(a + b) + multiset(c)
  {
    assert a + (b + c) == a + b + c;
  }

  /** All completions the updates should get, one after the other. */
  function Expectations(us: seq<Update>, c: Content): multiset<Completion>
  {
    if us == [] then multiset{}
    else Expectations(us[..|us| - 1], c) + multiset(Completes(us[|us| - 1], Meaning(us[..|us| - 1], c)))
  }

  lemma LastCompletes(us: seq<Update>, p: Progress)
    requires us != []
    ensures var before, u := us[..|us| - 1], us[|us| - 1];
            multiset(BatchCompletions(us, p))
            == multiset(BatchCompletions(before, p)) + multiset(Completes(u, Meaning(before, p.state.content)))
  {
    var before, u := us[..|us| - 1], us[|us| - 1];
    assert us == before + [u];
    BatchCompletionsStep(before, u, p);
    FoldMeaning(before, p);
  }

  lemma {:induction false} BatchMeetsExpectations(us: seq<Update>, p: Progress)
    ensures multiset(BatchCompletions(us, p)) == Expectations(us, p.state.content)
  {
    if us == [] {
      assert BatchCompletions(us, p) == [];
    } else {
      LastCompletes(us, p);
      BatchMeetsExpectations(us[..|us| - 1], p);
    }
  }

  lemma {:induction false} ExpectationsConcat(a: seq<Update>, b: seq<Update>, c: Content)
    ensures Expectations(a + b, c) == Expectations(a, c) + Expectations(b, Meaning(a, c))
  {
    if b == [] {
      assert a + b == a;
    } else {
      assert (a + b)[..|a + b| - 1] == a + b[..|b| - 1];
      ExpectationsConcat(a, b[..|b| - 1], c);
      MeaningConcat(a, b[..|b| - 1], c);
    }
  }

  lemma ExpectationsFromRecovery(us: seq<Update>, c: Content)
    requires us != [] && us[0].Recovery?
    ensures Expectations(us, c) == Expectations(us[1..], us[0].desired.content)
  {
    assert us == [us[0]] + us[1..];
    ExpectationsConcat([us[0]], us[1..], c);
    assert [us[0]][..0] == [];
    assert Meaning([us[0]], c) == us[0].desired.content;
    assert Expectations([us[0]], c) == multiset{};
  }

  ghost predicate CompletionsMet(w: World, c0: Content)
    requires w.handled <= |w.arrived|
  {
    multiset(w.completions) == Expectations(w.arrived[..w.handled], c0)
  }

  lemma BatchExpectations(w: World, c0: Content)
    requires Inv(w, c0) && w.batch != []
    ensures multiset(BatchCompletions(w.batch, Start(w)))
         == Expectations(OrdinaryOf(w.batch), Meaning(w.arrived[..w.handled], c0))
  {
    BatchMeetsExpectations(w.batch, Start(w));
    assert Pending(w)[0] == w.batch[0];
    if w.batch[0].Recovery? {
      ExpectationsFromRecovery(w.batch, w.applied.content);
    }
  }

  lemma MoreCompletions(done: seq<Completion>, more: seq<Completion>, a: seq<Update>, b: seq<Update>, c: Content)
    requires multiset(done) == Expectations(a, c) && multiset(more) == Expectations(b, Meaning(a, c))
    ensures multiset(done + more) == Expectations(a + b, c)
  {
    ExpectationsConcat(a, b, c);
  }

  lemma FinishCompletes(w: World, w': World, c0: Content)
    requires Inv(w, c0) && w.batch != [] && CompletionsMet(w, c0)
    requires w'.arrived == w.arrived && w'.handled == w.handled + |OrdinaryOf(w.batch)|
    requires w'.completions == w.completions + BatchCompletions(w.batch, Start(w))
    ensures w'.handled <= |w'.arrived| && CompletionsMet(w', c0)
  {
    var a, b, more := w.arrived[..w.handled], OrdinaryOf(w.batch), BatchCompletions(w.batch, Start(w));
    assert w'.handled <= |w'.arrived| && w'.arrived[..w'.handled] == a + b by { FinishAdvances(w); }
    assert multiset(more) == Expectations(b, Meaning(a, c0)) by { BatchExpectations(w, c0); }
    MoreCompletions(w.completions, more, a, b, c0);
  }

  lemma StepCompletes(w: World, e: Event, c0: Content)
    requires Inv(w, c0) && Enabled(w, e) && CompletionsMet(w, c0)
    ensures Step(w, e).handled <= |Step(w, e).arrived| && CompletionsMet(Step(w, e), c0)
  {
    if e.Finish? {
      FinishFields(w, e.hw);
      FinishCompletes(w, Finished(w, e.hw), c0);
    } else {
      assert Step(w, e).arrived[..w.handled] == w.arrived[..w.handled];
    }
  }

  lemma InitialCompletes(w: World)
    requires Initial(w)
    ensures CompletionsMet(w, w.desired.content)
  {
    assert w.arrived[..0] == [];
  }

  lemma {:induction false} RunCompletes(worlds: seq<World>, events: seq<Event>, i: nat)
    requires IsRun(worlds, events) && KeepsRecoveries(worlds, events) && i < |worlds|
    ensures worlds[i].handled <= |worlds[i].arrived| && CompletionsMet(worlds[i], worlds[0].desired.content)
  {
    if i > 0 {
      var w, e, c0 := worlds[i - 1], events[i - 1], worlds[0].desired.content;
      RunCompletes(worlds, events, i - 1);
      assert Inv(w, c0) by { RunInv(worlds, events, i - 1); }
      assert StepsTo(w, e, worlds[i]);
      StepCompletes(w, e, c0);
    } else {
      InitialCompletes(worlds[0]);
    }
  }

  lemma ExpectationsStep(arrived: seq<Update>, n: nat, c0: Content)
    requires 0 < n <= |arrived| && Numbered(arrived)
    ensures Expectations(arrived[..n], c0)
         == Expectations(arrived[..n - 1], c0) + multiset{Expected(arrived, n - 1, c0)}
  {
    assert arrived[..n][..n - 1] == arrived[..n - 1];
    assert Completes(arrived[n - 1], Meaning(arrived[..n - 1], c0)) == [Expected(arrived, n - 1, c0)];
  }

  lemma {:induction false} ExpectationsOnce(arrived: seq<Update>, n: nat, c: Completion, c0: Content)
    requires n <= |arrived| && Numbered(arrived)
    ensures Expectations(arrived[..n], c0)[c] == if c.id < n && c == Expected(arrived, c.id, c0) then 1 else 0
  {
    var e := Expectations(arrived[..n], c0);
    if n > 0 {
      var before := Expectations(arrived[..n - 1], c0);
      assert e == before + multiset{Expected(arrived, n - 1, c0)} by { ExpectationsStep(arrived, n, c0); }
      assert before[c] == if c.id < n - 1 && c == Expected(arrived, c.id, c0) then 1 else 0 by {
        ExpectationsOnce(arrived, n - 1, c, c0);
      }
      assert Expected(arrived, n - 1, c0).id == n - 1;
    } else {
      assert arrived[..n] == [];
    }
  }

  /** Every handled update is completed exactly once: by `onError` if its function raises on the
      fold of everything before it, by `onSuccess` otherwise. Nothing else is completed. */
  lemma CompletedExactlyOnce(worlds: seq<World>, events: seq<Event>, i: nat, c: Completion)
    requires IsRun(worlds, events) && KeepsRecoveries(worlds, events) && i < |worlds|
    ensures worlds[i].handled <= |worlds[i].arrived|
    ensures multiset(worlds[i].completions)[c] ==
            if c.id < worlds[i].handled && c == Expected(worlds[i].arrived, c.id, worlds[0].desired.content) then 1
            else 0
  {
    RunInv(worlds, events, i);
    RunCompletes(worlds, events, i);
    ExpectationsOnce(worlds[i].arrived, worlds[i].handled, c, worlds[0].desired.content);
  }

  /** How often an ordinary update numbered `k` occurs. */
  function Times(us: seq<Update>, k: nat): nat
  {
    if us == [] then 0
    else Times(us[..|us| - 1], k) + if us[|us| - 1].Ordinary? && us[|us| - 1].id == k then 1 else 0
  }

  function Ends(done: multiset<Completion>, k: nat): nat
  {
    done[Failed(k)] + done[Succeeded(k)]
  }

  lemma {:induction false} ExpectationsTimes(us: seq<Update>, c: Content, k: nat)
    ensures Ends(Expectations(us, c), k) == Times(us, k)
  {
    if us != [] {
      ExpectationsTimes(us[..|us| - 1], c, k);
    }
  }

  lemma {:induction false} TimesConcat(a: seq<Update>, b: seq<Update>, k: nat)
    ensures Times(a + b, k) == Times(a, k) + Times(b, k)
  {
    if b == [] {
      assert a + b == a;
    } else {
      assert (a + b)[..|a + b| - 1] == a + b[..|b| - 1];
      TimesConcat(a, b[..|b| - 1], k);
    }
  }

  lemma TimesOrdinary(us: seq<Update>, k: nat)
    ensures Times(OrdinaryOf(us), k) == Times(us, k)
  {
    if us != [] && us[0].Recovery? {
      assert us == [us[0]] + us[1..] && [us[0]][..0] == [];
      TimesConcat([us[0]], us[1..], k);
    }
  }

  lemma {:induction false} TimesNumbered(arrived: seq<Update>, n: nat, k: nat)
    requires n <= |arrived| && Numbered(arrived)
    ensures Times(arrived[..n], k) == if k < n then 1 else 0
  {
    if n > 0 {
      assert arrived[..n][..n - 1] == arrived[..n - 1];
      TimesNumbered(arrived, n - 1, k);
    } else {
      assert arrived[..n] == [];
    }
  }

  ghost predicate Ended(w: World, k: nat)
    requires w.handled <= |w.arrived|
  {
    Ends(multiset(w.completions), k) == Times(w.arrived[..w.handled], k)
  }

  lemma BatchEnds(us: seq<Update>, p: Progress, k: nat)
    ensures Ends(multiset(BatchCompletions(us, p)), k) == Times(OrdinaryOf(us), k)
  {
    BatchMeetsExpectations(us, p);
    ExpectationsTimes(us, p.state.content, k);
    TimesOrdinary(us, k);
  }

  lemma MoreEnds(done: seq<Completion>, more: seq<Completion>, a: seq<Update>, b: seq<Update>, k: nat)
    requires Ends(multiset(done), k) == Times(a, k) && Ends(multiset(more), k) == Times(b, k)
    ensures Ends(multiset(done + more), k) == Times(a + b, k)
  {
    TimesConcat(a, b, k);
  }

  lemma FinishEnds(w: World, w': World, k: nat)
    requires InOrder(w) && w.batch != [] && Ended(w, k)
    requires w'.arrived == w.arrived && w'.handled == w.handled + |OrdinaryOf(w.batch)|
    requires w'.completions == w.completions + BatchCompletions(w.batch, Start(w))
    ensures w'.handled <= |w'.arrived| && Ended(w', k)
  {
    var a, b, more := w.arrived[..w.handled], OrdinaryOf(w.batch), BatchCompletions(w.batch, Start(w));
    assert w'.handled <= |w'.arrived| && w'.arrived[..w'.handled] == a + b by { FinishAdvances(w); }
    assert Ends(multiset(more), k) == Times(b, k) by { BatchEnds(w.batch, Start(w), k); }
    MoreEnds(w.completions, more, a, b, k);
  }

  lemma StepEnds(w: World, e: Event, k: nat)
    requires InOrder(w) && Enabled(w, e) && Ended(w, k)
    ensures Step(w, e).handled <= |Step(w, e).arrived| && Ended(Step(w, e), k)
  {
    if e.Finish? {
      FinishFields(w, e.hw);
      FinishEnds(w, Finished(w, e.hw), k);
    } else {
      assert Step(w, e).arrived[..w.handled] == w.arrived[..w.handled];
    }
  }

  lemma {:induction false} RunEnds(worlds: seq<World>, events: seq<Event>, i: nat, k: nat)
    requires IsRun(worlds, events) && i < |worlds|
    ensures worlds[i].handled <= |worlds[i].arrived| && Ended(worlds[i], k)
  {
    if i > 0 {
      RunEnds(worlds, events, i - 1, k);
      RunOrdered(worlds, events, i - 1);
      assert StepsTo(worlds[i - 1], events[i - 1], worlds[i]);
      StepEnds(worlds[i - 1], events[i - 1], k);
    } else {
      assert worlds[0].arrived[..0] == [];
    }
  }

  /** In every run, whatever the updates return, update `k` is completed exactly once when it was
      handled and not at all before: by `onError` or by `onSuccess`, never both. */
  lemma NeverCompletedTwice(worlds: seq<World>, events: seq<Event>, i: nat, k: nat)
    requires IsRun(worlds, events) && i < |worlds|
    ensures Ends(multiset(worlds[i].completions), k) == if k < worlds[i].handled then 1 else 0
  {
    RunEnds(worlds, events, i, k);
    RunOrdered(worlds, events, i);
    TimesNumbered(worlds[i].arrived, worlds[i].handled, k);
  }

  /** Errors come before successes, and both in the order of arrival. */
  ghost predicate ErrorsFirst(done: seq<Completion>)
  {
    forall i, j | 0 <= i < j < |done| ::
      (done[j].Failed? ==> done[i].Failed?) && (done[i].Failed? == done[j].Failed? ==> done[i].id < done[j].id)
  }

  ghost predicate Increasing(us: seq<Update>)
  {
    && (forall i | 0 < i < |us| :: us[i].Ordinary?)
    && forall i, j | 0 <= i < j < |us| && us[i].Ordinary? :: us[i].id < us[j].id
  }

  /** The completions of one kind, in order, below the number of every update still to come. */
  ghost predicate InTurn(done: seq<Completion>, failed: bool, below: nat)
  {
    && (forall i | 0 <= i < |done| :: done[i].Failed? == failed && done[i].id < below)
    && forall i, j | 0 <= i < j < |done| :: done[i].id < done[j].id
  }

  lemma NextInTurn(done: seq<Completion>, c: Completion, after: seq<Completion>, failed: bool, n: nat, below: nat)
    requires InTurn(done, failed, n) && n <= below
    requires after == done || (after == done + [c] && c.Failed? == failed && n <= c.id < below)
    ensures InTurn(after, failed, below)
  {
  }

  lemma {:induction false} LoopInTurn(us: seq<Update>, p: Progress, below: nat)
    requires Increasing(us) && forall u | u in us && u.Ordinary? :: u.id < below
    ensures InTurn(Failures(us, p), true, below) && InTurn(Successes(Remaining(us, p)), false, below)
  {
    if us != [] {
      var before, u := us[..|us| - 1], us[|us| - 1];
      var n := if u.Ordinary? then u.id else 0;
      assert us == before + [u] && u in us;
      IncreasingBefore(us, n);
      LoopInTurn(before, p, n);
      LoopGrows(before, u, p);
      var failed, passed := Failures(before, p), Successes(Remaining(before, p));
      NextInTurn(failed, Failed(n), Failures(us, p), true, n, below);
      NextInTurn(passed, Succeeded(n), Successes(Remaining(us, p)), false, n, below);
    }
  }

  lemma IncreasingBefore(us: seq<Update>, n: nat)
    requires us != [] && Increasing(us) && n == if us[|us| - 1].Ordinary? then us[|us| - 1].id else 0
    ensures var before := us[..|us| - 1]; Increasing(before) && forall u | u in before && u.Ordinary? :: u.id < n
  {
    var before := us[..|us| - 1];
    forall u | u in before && u.Ordinary? ensures u.id < n {
      var i :| 0 <= i < |before| && before[i] == u;
      assert us[i] == u;
    }
  }

  lemma LoopGrows(us: seq<Update>, u: Update, p: Progress)
    ensures var before, after := Failures(us, p), Failures(us + [u], p);
            after == before || (u.Ordinary? && after == before + [Failed(u.id)])
    ensures var before, after := Successes(Remaining(us, p)), Successes(Remaining(us + [u], p));
            after == before || (u.Ordinary? && after == before + [Succeeded(u.id)])
  {
    LoopStep(us, u, p);
    SuccessesPush(Remaining(us, p), u);
    assert Remaining(us, p) + [] == Remaining(us, p) && Failures(us, p) + [] == Failures(us, p);
  }

  lemma BatchIncreasing(w: World)
    requires InOrder(w) && w.batch != []
    ensures Increasing(w.batch) && forall u | u in w.batch && u.Ordinary? :: u.id < |w.arrived|
  {
    var skip := if w.batch[0].Recovery? then 1 else 0;
    assert forall k | 0 <= k < |w.batch| :: Pending(w)[k] == w.batch[k];
    forall k | skip <= k < |w.batch|
      ensures w.handled + k - skip < |w.arrived| && w.batch[k] == w.arrived[w.handled + k - skip]
    {
      assert OrdinaryOf(Pending(w))[k - skip] == w.batch[k];
      assert w.arrived[w.handled..][k - skip] == w.arrived[w.handled + (k - skip)];
    }
  }

  /** In every run a batch first reports its errors and then its successes, both in the order in
      which the updates arrived; no other event reports any. */
  lemma CompletesInOrder(worlds: seq<World>, events: seq<Event>, i: nat)
    requires IsRun(worlds, events) && i < |events|
    ensures var before, after := worlds[i].completions, worlds[i + 1].completions;
            before <= after && ErrorsFirst(after[|before|..]) && (!events[i].Finish? ==> after == before)
  {
    var w, e := worlds[i], events[i];
    assert StepsTo(w, e, worlds[i + 1]);
    if e.Finish? {
      RunOrdered(worlds, events, i);
      BatchIncreasing(w);
      LoopInTurn(w.batch, Start(w), |w.arrived|);
      FinishFields(w, e.hw);
      assert worlds[i + 1].completions[|w.completions|..] == BatchCompletions(w.batch, Start(w));
    }
  }

  // ---- hardware ----

  /** A batch goes to hardware exactly when it asks for another state and the switch is not exiting;
      then applied is what hardware answers and desired what it was asked for. Otherwise, and
      after any other event, both states and what hardware was given stay as they are. */
  lemma HardwareDecides(worlds: seq<World>, events: seq<Event>, i: nat)
    requires IsRun(worlds, events) && i < |events|
    ensures var w, w', e := worlds[i], worlds[i + 1], events[i];
            if e.Finish? && Target(w) != w.applied && !w.exiting then
              && w'.applied == e.hw && w'.desired == Target(w)
              && w'.deltas == w.deltas + [Delta(w.applied, Target(w))]
            else w'.applied == w.applied && w'.desired == w.desired && w'.deltas == w.deltas
  {
    assert StepsTo(worlds[i], events[i], worlds[i + 1]);
  }

  /** Once the switch exits, hardware is given nothing more and neither state changes. */
  lemma {:induction false} ExitFreezes(worlds: seq<World>, events: seq<Event>, i: nat, j: nat)
    requires IsRun(worlds, events) && i <= j < |worlds| && worlds[i].exiting
    ensures var w, w' := worlds[i], worlds[j];
            w'.exiting && w'.applied == w.applied && w'.desired == w.desired && w'.deltas == w.deltas
    decreases j
  {
    if i < j {
      ExitFreezes(worlds, events, i, j - 1);
      HardwareDecides(worlds, events, j - 1);
      assert StepsTo(worlds[j - 1], events[j - 1], worlds[j]);
    }
  }
}
