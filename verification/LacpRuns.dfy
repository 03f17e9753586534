/** Whole runs of LACP: what holds at every event boundary, and what single events establish. */
module LacpRuns {
  import opened LacpTypes
  import opened LacpMachines
  import opened LacpInvariants

  // ---------------------------------------------------------------------------
  // Every event keeps the invariant
  // ---------------------------------------------------------------------------

  predicate OthersSound(w: World, p: PortID)
  {
    forall q :: q in w.ports && q != p ==> PortInv(w.ports[q])
  }

  predicate OthersHeard(w: World, p: PortID)
    requires Closed(w)
  {
    forall q :: q in w.sel && q != p ==> w.ports[q].rx == CURRENT || w.ports[q].rx == EXPIRED
  }

  /** The invariant in the middle of an event of port `p`: all of it except for `p`'s own
      receive side, which the event is about to settle. */
  predicate InvExcept(w: World, p: PortID)
  {
    && p in w.ports
    && SharedMinLinks(w)
    && SelectorInv(w)
    && OthersSound(w, p)
    && OthersHeard(w, p)
  }

  lemma SettleInv(w: World, p: PortID)
    requires InvExcept(w, p) && RxInv(w.ports[p]) && TimerInv(w.ports[p])
    requires p in w.sel ==> w.ports[p].rx == CURRENT || w.ports[p].rx == EXPIRED
    ensures Inv(w)
  {
  }

  lemma SetPortKeepsExcept(w: World, p: PortID, port: Port)
    requires InvExcept(w, p) && SameGroup(w, p, port) && MuxInv(port)
    ensures InvExcept(SetPort(w, p, port), p)
  {
    var w' := SetPort(w, p, port);
    SetPortKeepsSelector(w, p, port);
    SameConfigsShareMinLinks(w, w');
  }

  lemma SignalsKeepOthers(w: World, w': World, p: PortID)
    requires Closed(w) && p in w.ports && OthersSound(w, p) && OthersHeard(w, p)
    requires OnlySignals(w, w') && w'.sel.Keys <= w.sel.Keys + {p}
    ensures Closed(w') && OthersSound(w', p) && OthersHeard(w', p)
  {
    forall q | q in w.ports
      ensures SameReceive(w.ports[q], w'.ports[q]) && (PortInv(w.ports[q]) ==> PortInv(w'.ports[q]))
    {
      assert Signalled(w.ports[q], w'.ports[q]);
    }
  }

  lemma UnselectedKeepsExcept(w: World, p: PortID)
    requires InvExcept(w, p)
    ensures InvExcept(Unselected(w, p), p)
    ensures p !in Unselected(w, p).sel
    ensures Unselected(w, p).ports[p] == MuxUnselected(w.ports[p])
    ensures SameReceive(w.ports[p], Unselected(w, p).ports[p])
  {
    var w' := Unselected(w, p);
    UnselectedSignals(w, p);
    UnselectedKeepsSelector(w, p);
    UnselectedKeeps(w.ports[p]);
    SignalsKeepConfigs(w, w');
    SameConfigsShareMinLinks(w, w');
    SignalsKeepOthers(w, w', p);
  }

  lemma SelectKeepsExcept(w: World, p: PortID)
    requires InvExcept(w, p)
    ensures InvExcept(Select(w, p), p)
    ensures SameReceive(w.ports[p], Select(w, p).ports[p])
  {
    var w' := Select(w, p);
    SelectKeeps(w, p);
    SignalsKeepConfigs(w, w');
    SameConfigsShareMinLinks(w, w');
    SignalsKeepOthers(w, w', p);
    assert Signalled(w.ports[p], w'.ports[p]);
  }

  lemma UpdateSelectedKeeps(w: World, p: PortID, pdu: LACPDU)
    requires InvExcept(w, p)
    ensures InvExcept(UpdateSelected(w, p, pdu), p)
    ensures SameReceive(w.ports[p], UpdateSelected(w, p, pdu).ports[p])
    ensures p in UpdateSelected(w, p, pdu).sel ==> !PartnerChanged(w.ports[p], pdu)
  {
    if PartnerChanged(w.ports[p], pdu) { UnselectedKeepsExcept(w, p); }
  }

  lemma RecordKeepsExcept(w: World, p: PortID, pdu: LACPDU)
    requires InvExcept(w, p) && w.ports[p].rx == CURRENT
    requires p in w.sel ==> !PartnerChanged(w.ports[p], pdu)
    ensures var settled := Heard(w.ports[p], pdu);
            && InvExcept(SetPort(w, p, settled), p)
            && RxInv(settled) && settled.rx == CURRENT && settled.up == w.ports[p].up
            && settled.cfg == w.ports[p].cfg && SameParticipant(settled.partner, pdu.actorInfo)
            && settled.partner.state.aggregatable == pdu.actorInfo.state.aggregatable
  {
    RecordPDUKeeps(w.ports[p], pdu);
    var settled := Heard(w.ports[p], pdu);
    assert MuxInv(settled) && RxInv(settled);
    SetPortKeepsExcept(w, p, settled);
  }

  /** When a PDU has been recorded and the selector is about to run, the port either holds no
      selection or already holds that of its new group: `insert` never meets another entry. */
  lemma RecordedKeeps(w: World, p: PortID, pdu: LACPDU)
    requires Inv(w) && p in w.ports
    ensures InvExcept(Recorded(w, p, pdu), p)
    ensures var r := Recorded(w, p, pdu).ports[p];
            && RxInv(r) && r.rx == CURRENT && r.up == w.ports[p].up && r.cfg == w.ports[p].cfg
            && SameParticipant(r.partner, pdu.actorInfo)
            && r.partner.state.aggregatable == pdu.actorInfo.state.aggregatable
    ensures p in Recorded(w, p, pdu).sel ==> SelectionStands(Recorded(w, p, pdu), p)
  {
    var port := w.ports[p].(rx := CURRENT);
    SetPortKeepsExcept(w, p, port);
    UpdateSelectedKeeps(SetPort(w, p, port), p, pdu);
    RecordKeepsExcept(UpdateSelected(SetPort(w, p, port), p, pdu), p, pdu);
  }

  lemma CurrentKeeps(w: World, p: PortID, pdu: LACPDU)
    requires Inv(w) && p in w.ports && w.ports[p].rx != DISABLED && w.ports[p].rx != INITIALIZED
    ensures Inv(Current(w, p, pdu))
  {
    RecordedKeeps(w, p, pdu);
    var w1 := Select(Recorded(w, p, pdu), p);
    SelectKeepsExcept(Recorded(w, p, pdu), p);
    var port := w1.ports[p].(rxTimer := true);
    assert MuxInv(port);
    SetPortKeepsExcept(w1, p, port);
    SettleInv(Current(w, p, pdu), p);
  }

  lemma DefaultSelectionGone(w: World, p: PortID)
    requires InvExcept(w, p) && RxInv(w.ports[p]) && w.ports[p].rx == EXPIRED
    ensures var w2 := Unselected(SetPort(w, p, w.ports[p].(rx := DEFAULTED)), p);
            && InvExcept(w2, p) && p !in w2.sel && w2.ports[p].mux == DETACHED
            && SameReceive(w.ports[p].(rx := DEFAULTED), w2.ports[p])
  {
    var port := w.ports[p].(rx := DEFAULTED);
    SetPortKeepsExcept(w, p, port);
    UnselectedKeepsExcept(SetPort(w, p, port), p);
    UnselectedKeeps(port);
  }

  lemma RecordDefaultKeeps(p: Port)
    requires MuxInv(p) && p.rx == DEFAULTED && !p.rxTimer && p.up && !p.matched
    ensures var settled := DefaultAssumed(p);
            PortInv(settled) && settled.cfg == p.cfg && settled.mux == p.mux
  {
  }

  lemma DefaultedKeeps(w: World, p: PortID)
    requires InvExcept(w, p) && RxInv(w.ports[p]) && w.ports[p].rx == EXPIRED && !w.ports[p].rxTimer && w.ports[p].up
    ensures Inv(Defaulted(w, p))
    ensures p !in Defaulted(w, p).sel && Defaulted(w, p).ports[p].mux == DETACHED
  {
    var w2 := Unselected(SetPort(w, p, w.ports[p].(rx := DEFAULTED)), p);
    DefaultSelectionGone(w, p);
    RecordDefaultKeeps(w2.ports[p]);
    var settled := DefaultAssumed(w2.ports[p]);
    SetPortKeepsExcept(w2, p, settled);
    SettleInv(SetPort(w2, p, settled), p);
  }

  lemma TakenDownKeeps(w: World, p: PortID)
    requires Inv(w) && p in w.ports
    ensures Inv(TakenDown(w, p))
    ensures p !in TakenDown(w, p).sel
  {
    var port := w.ports[p].(up := false);
    DisabledKeeps(port);
    SetPortKeepsExcept(w, p, RxDisabled(port));
    var w1 := SetPort(w, p, RxDisabled(port));
    if p in w1.sel { UnselectedKeepsExcept(w1, p); }
    SettleInv(TakenDown(w, p), p);
  }

  lemma InitializeKeeps(w: World, p: PortID)
    requires Inv(w) && p in w.ports && w.ports[p].rx == INITIALIZED
    ensures Inv(Initialize(w, p))
  {
    UnselectedKeepsExcept(w, p);
    var w1 := Unselected(w, p);
    var q := DefaultAssumed(w1.ports[p]);
    assert MuxInv(q);
    DisabledKeeps(q);
    SetPortKeepsExcept(w1, p, RxDisabled(q));
    SettleInv(Initialize(w, p), p);
  }

  lemma ExpiryKeeps(w: World, p: PortID, port: Port)
    requires Inv(w) && p in w.ports && MuxInv(port) && port.cfg == w.ports[p].cfg && port.up
    requires port.partner == w.ports[p].partner && port.actor == w.ports[p].actor
    ensures Inv(SetPort(w, p, RxExpired(port)))
  {
    ExpiredKeeps(port);
    SetPortKeepsExcept(w, p, RxExpired(port));
    SettleInv(SetPort(w, p, RxExpired(port)), p);
  }

  lemma FirstExpiry(w: World, p: PortID)
    requires Inv(w) && Enabled(w, ReceiveTimeout(p)) && w.ports[p].rx == CURRENT
    ensures Step(w, ReceiveTimeout(p)).Running? && Inv(Step(w, ReceiveTimeout(p)).world)
  {
    ExpiryKeeps(w, p, w.ports[p].(rxTimer := false));
  }

  /** A second expiry without a PDU in between leaves the port with no selection and its mux
      DETACHED. */
  lemma SecondExpiry(w: World, p: PortID)
    requires Inv(w) && Enabled(w, ReceiveTimeout(p)) && w.ports[p].rx == EXPIRED
    ensures Step(w, ReceiveTimeout(p)).Running? && Inv(Step(w, ReceiveTimeout(p)).world)
    ensures var w' := Step(w, ReceiveTimeout(p)).world;
            p !in w'.sel && p in w'.ports && w'.ports[p].mux == DETACHED && Forwarding(w'.ports[p].commands) == {}
  {
    var fired := w.ports[p].(rxTimer := false);
    SetPortKeepsExcept(w, p, fired);
    DefaultedKeeps(SetPort(w, p, fired), p);
  }

  lemma MuxTimerKeeps(w: World, p: PortID)
    requires Inv(w) && Enabled(w, MuxTimerFired(p))
    ensures Inv(SetPort(w, p, MuxTimeout(w.ports[p])))
  {
    TimeoutKeeps(w.ports[p]);
    SetPortKeepsExcept(w, p, MuxTimeout(w.ports[p]));
    SettleInv(SetPort(w, p, MuxTimeout(w.ports[p])), p);
  }

  /** Every enabled event passes the source's checks and keeps the invariant. */
  lemma StepKeeps(w: World, e: Event)
    requires Inv(w) && Enabled(w, e)
    ensures Step(w, e).Running? && Inv(Step(w, e).world)
  {
    var p := e.port;
    var port := w.ports[p];
    match e
    case Start(_) => InitializeKeeps(w, p);
    case PortUp(_) => ExpiryKeeps(w, p, port.(up := true));
    case PortDown(_) => TakenDownKeeps(w, p);
    case Received(_, pdu) => if port.rx != DISABLED { CurrentKeeps(w, p, pdu); }
    case ReceiveTimeout(_) =>
      if port.rx == CURRENT {
        FirstExpiry(w, p);
      } else {
        SecondExpiry(w, p);
      }
    case MuxTimerFired(_) => MuxTimerKeeps(w, p);
  }

  lemma InitialInv(w: World)
    requires Initial(w)
    ensures Inv(w)
  {
    forall p | p in w.ports ensures PortInv(w.ports[p]) {
      assert w.ports[p] == NewPort(w.ports[p].cfg, w.ports[p].up);
    }
  }

  /** The invariant holds at every event boundary of every run. */
  lemma {:induction false} RunInv(worlds: seq<World>, events: seq<Event>, i: nat)
    requires IsRun(worlds, events) && i < |worlds|
    ensures Inv(worlds[i])
  {
    if i == 0 {
      InitialInv(worlds[0]);
    } else {
      RunInv(worlds, events, i - 1);
      assert StepsTo(worlds[i - 1], events[i - 1], worlds[i]);
      StepKeeps(worlds[i - 1], events[i - 1]);
    }
  }

  // ---------------------------------------------------------------------------
  // What the invariant means
  // ---------------------------------------------------------------------------

  /** No CHECK fails and nothing is thrown, whatever enabled event comes next in a run. */
  lemma ChecksNeverFail(worlds: seq<World>, events: seq<Event>, e: Event)
    requires IsRun(worlds, events) && Enabled(worlds[|events|], e)
    ensures Step(worlds[|events|], e).Running?
  {
    RunInv(worlds, events, |events|);
    StepKeeps(worlds[|events|], e);
  }

  /** The receive timer is set exactly while an epoch is running. */
  lemma ReceiveTimerExact(worlds: seq<World>, events: seq<Event>, i: nat, p: PortID)
    requires IsRun(worlds, events) && i < |worlds| && p in worlds[i].ports
    ensures worlds[i].ports[p].rxTimer <==> worlds[i].ports[p].rx == CURRENT || worlds[i].ports[p].rx == EXPIRED
  {
    RunInv(worlds, events, i);
    assert PortInv(worlds[i].ports[p]);
  }

  /** Fate sharing: a port only distributes while it is up, its partner is in sync and its
      receive machine is CURRENT; otherwise no aggregate has it enabled. */
  lemma FateSharing(worlds: seq<World>, events: seq<Event>, i: nat, p: PortID)
    requires IsRun(worlds, events) && i < |worlds| && p in worlds[i].ports
    ensures var port := worlds[i].ports[p];
            && port.matched == port.partner.state.inSync
            && (port.partner.state.inSync ==> port.rx == CURRENT)
            && (port.mux == COLLECTING_DISTRIBUTING ==> port.matched && port.up)
            && (port.rx != CURRENT ==> Forwarding(port.commands) == {})
  {
    RunInv(worlds, events, i);
    assert PortInv(worlds[i].ports[p]);
  }

  /** The actor flags and the forwarding state the servicer ends up with follow the mux; no command
      ever enabled the port in a foreign aggregate, and the last one enabled it exactly while it
      distributes. */
  lemma ForwardingFollowsMux(worlds: seq<World>, events: seq<Event>, i: nat, p: PortID)
    requires IsRun(worlds, events) && i < |worlds| && p in worlds[i].ports
    ensures FlagsFollowMux(worlds[i].ports[p]) && ForwardsOnlyWhenDistributing(worlds[i].ports[p])
    ensures CommandsFollowMux(worlds[i].ports[p])
  {
    RunInv(worlds, events, i);
    assert PortInv(worlds[i].ports[p]);
  }

  /** A group without individual members has no SELECTED port, or at least the minimum
      configured for its members. */
  lemma MinimumLinks(worlds: seq<World>, events: seq<Event>, i: nat, lag: LagID, p: PortID)
    requires IsRun(worlds, events) && i < |worlds|
    requires p in worlds[i].sel && worlds[i].sel[p].lagID == lag
    requires forall q :: q in worlds[i].sel && worlds[i].sel[q].lagID == lag ==>
                           q in worlds[i].ports && !Individual(worlds[i].ports[q])
    ensures p in worlds[i].ports
    ensures var n := |Members(worlds[i], lag, SELECTED)|;
            n == 0 || n >= worlds[i].ports[p].cfg.minLinkCount
  {
    var w := worlds[i];
    RunInv(worlds, events, i);
    var s := Members(w, lag, SELECTED);
    if s != {} {
      var q :| q in s;
      assert MeetsMinLinks(w, q);
      assert w.ports[q].cfg.aggregatePortID == lag.actorKey == w.ports[p].cfg.aggregatePortID;
    }
  }

  /** Every entry of the selection map names the group its port is in. */
  lemma SelectionsNameCurrentGroup(worlds: seq<World>, events: seq<Event>, i: nat, p: PortID)
    requires IsRun(worlds, events) && i < |worlds| && p in worlds[i].sel
    ensures p in worlds[i].ports && worlds[i].sel[p].lagID == TargetLag(worlds[i].ports[p])
    ensures worlds[i].ports[p].rx == CURRENT || worlds[i].ports[p].rx == EXPIRED
  {
    RunInv(worlds, events, i);
  }
}
