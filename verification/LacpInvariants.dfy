/** What every LACP event keeps, for every port and for the selection map they share. */
module LacpInvariants {
  import opened LacpTypes
  import opened LacpMachines

  // ---------------------------------------------------------------------------
  // One port
  // ---------------------------------------------------------------------------

  /** The aggregates in which a port is enabled once its forwarding updates have been applied
      in order. */
  function Forwarding(commands: seq<Command>): set<U16>
  {
    if commands == [] then {}
    else Programmed(Forwarding(commands[..|commands| - 1]), commands[|commands| - 1])
  }

  function Programmed(enabled: set<U16>, c: Command): set<U16>
  {
    if c.Enable? then enabled + {c.aggregate} else enabled - {c.aggregate}
  }

  predicate EndsEnabled(commands: seq<Command>)
  {
    commands != [] && commands[|commands| - 1].Enable?
  }

  predicate EnablesOnly(commands: seq<Command>, aggregate: U16)
  {
    forall c | c in commands && c.Enable? :: c.aggregate == aggregate
  }

  lemma ForwardingAppend(commands: seq<Command>, c: Command, aggregate: U16)
    ensures Forwarding(commands + [c]) == Programmed(Forwarding(commands), c)
    ensures EndsEnabled(commands + [c]) == c.Enable?
    ensures EnablesOnly(commands, aggregate) && (c.Enable? ==> c.aggregate == aggregate) ==>
              EnablesOnly(commands + [c], aggregate)
  {
    assert (commands + [c])[..|commands|] == commands;
  }

  /** IN_SYNC, COLLECTING and DISTRIBUTING are a function of the mux state. */
  predicate FlagsFollowMux(p: Port)
  {
    && (p.actor.inSync <==> p.mux == ATTACHED || p.mux == COLLECTING_DISTRIBUTING)
    && (p.actor.collecting <==> p.mux == COLLECTING_DISTRIBUTING)
    && (p.actor.distributing <==> p.mux == COLLECTING_DISTRIBUTING)
  }

  /** A port forwards in its own aggregate while the mux is collecting and distributing, and
      in no aggregate otherwise. */
  predicate ForwardsOnlyWhenDistributing(p: Port)
  {
    Forwarding(p.commands) == if p.mux == COLLECTING_DISTRIBUTING then {p.cfg.aggregatePortID} else {}
  }

  /** The port was never enabled in an aggregate other than its own, and the last command enabled it
      exactly while the mux is collecting and distributing. */
  predicate CommandsFollowMux(p: Port)
  {
    && EnablesOnly(p.commands, p.cfg.aggregatePortID)
    && (EndsEnabled(p.commands) <==> p.mux == COLLECTING_DISTRIBUTING)
  }

  predicate MuxInv(p: Port)
  {
    && p.actor.aggregatable == p.cfg.aggregatable
    && FlagsFollowMux(p)
    && ForwardsOnlyWhenDistributing(p)
    && CommandsFollowMux(p)
    && (p.mux == COLLECTING_DISTRIBUTING ==> p.matched)
    && (p.mux == ATTACHED || p.mux == COLLECTING_DISTRIBUTING || p.muxTimer ==>
          p.selection == p.cfg.aggregatePortID)
  }

  predicate RxInv(p: Port)
  {
    && p.matched == p.partner.state.inSync
    && (p.partner.state.inSync ==> p.rx == CURRENT)
    && (p.rx == EXPIRED ==> p.partner.state.shortTimeout)
  }

  predicate TimerInv(p: Port)
  {
    && (p.rxTimer <==> p.rx == CURRENT || p.rx == EXPIRED)
    && (!p.up ==> p.rx == DISABLED || p.rx == INITIALIZED)
  }

  predicate PortInv(p: Port)
  {
    MuxInv(p) && RxInv(p) && TimerInv(p)
  }

  /** The flags that are not the mux's. */
  predicate SameFlags(a: LacpState, b: LacpState)
  {
    && b.active == a.active && b.shortTimeout == a.shortTimeout && b.aggregatable == a.aggregatable
    && b.defaulted == a.defaulted && b.expired == a.expired
  }

  /** What a signal from a selector can never change. */
  predicate SameReceive(p: Port, p': Port)
  {
    && p'.cfg == p.cfg && p'.up == p.up
    && p'.rx == p.rx && p'.rxTimer == p.rxTimer
    && p'.partner == p.partner && p'.matched == p.matched
    && p'.actor.aggregatable == p.actor.aggregatable && SameFlags(p.actor, p'.actor)
  }

  predicate Signalled(p: Port, p': Port)
  {
    SameReceive(p, p') && (MuxInv(p) ==> MuxInv(p'))
  }

  lemma DetachedKeeps(p: Port)
    ensures SameReceive(p, MuxDetached(p))
    ensures MuxInv(p) && p.mux != DETACHED ==> MuxInv(MuxDetached(p))
  {
    ForwardingAppend(p.commands, Disable(p.selection), p.cfg.aggregatePortID);
  }

  lemma AttachedKeeps(p: Port)
    requires p.selection == p.cfg.aggregatePortID
    ensures SameReceive(p, MuxAttached(p))
    ensures MuxInv(p) ==> MuxInv(MuxAttached(p))
  {
    ForwardingAppend(p.commands, Disable(p.selection), p.cfg.aggregatePortID);
  }

  lemma AttachedSame(p: Port)
    ensures SameReceive(p, MuxAttached(p))
  {
  }

  lemma CollectingDistributingKeeps(p: Port)
    requires p.matched && p.mux == ATTACHED
    ensures SameReceive(p, MuxCollectingDistributing(p))
    ensures MuxInv(p) ==> MuxInv(MuxCollectingDistributing(p))
  {
    ForwardingAppend(p.commands, Enable(p.selection), p.cfg.aggregatePortID);
  }

  lemma SelectedKeeps(p: Port)
    ensures Signalled(p, MuxSelected(p, p.cfg.aggregatePortID))
  {
    var q := p.(selection := p.cfg.aggregatePortID);
    if p.mux == WAITING {
      AttachedKeeps(q);
      assert MuxInv(p) ==> MuxInv(q);
    }
  }

  lemma UnselectedKeeps(p: Port)
    ensures Signalled(p, MuxUnselected(p))
    ensures MuxUnselected(p).mux == if p.mux == COLLECTING_DISTRIBUTING then ATTACHED else DETACHED
  {
    if p.mux == COLLECTING_DISTRIBUTING {
      AttachedSame(p);
      if MuxInv(p) { AttachedKeeps(p); }
    } else {
      DetachedKeeps(p);
    }
  }

  lemma StandbyKeeps(p: Port)
    ensures Signalled(p, MuxStandby(p))
    ensures MuxStandby(p).mux == DETACHED || MuxStandby(p).mux == WAITING
  {
    DetachedKeeps(p);
  }

  lemma MatchedKeeps(p: Port)
    ensures MuxInv(p) ==> MuxInv(MuxMatched(p))
    ensures SameReceive(p.(matched := true), MuxMatched(p))
  {
    var q := p.(matched := true);
    if q.mux == ATTACHED { CollectingDistributingKeeps(q); }
  }

  lemma NotMatchedKeeps(p: Port)
    ensures MuxInv(p) ==> MuxInv(MuxNotMatched(p))
    ensures SameReceive(p.(matched := false), MuxNotMatched(p))
    ensures MuxNotMatched(p).mux != COLLECTING_DISTRIBUTING
  {
    if MuxInv(p) && p.mux == COLLECTING_DISTRIBUTING {
      ForwardingAppend(p.commands, Disable(p.selection), p.cfg.aggregatePortID);
    }
  }

  lemma TimeoutKeeps(p: Port)
    requires MuxInv(p) && p.muxTimer
    ensures SameReceive(p, MuxTimeout(p)) && MuxInv(MuxTimeout(p))
  {
    var q := p.(muxTimer := false);
    ForwardingAppend(q.commands, Disable(q.selection), q.cfg.aggregatePortID);
    var r := MuxAttached(q);
    assert FlagsFollowMux(r) && ForwardsOnlyWhenDistributing(r) && CommandsFollowMux(r);
    if r.matched { CollectingDistributingKeeps(r); }
  }

  lemma ExpiredKeeps(p: Port)
    requires MuxInv(p)
    ensures MuxInv(RxExpired(p)) && RxInv(RxExpired(p))
    ensures RxExpired(p).cfg == p.cfg && RxExpired(p).up == p.up
    ensures RxExpired(p).rx == EXPIRED && RxExpired(p).rxTimer
    ensures TargetLag(RxExpired(p)) == TargetLag(p)
    ensures Individual(RxExpired(p)) == Individual(p)
  {
    var q := p.(rx := EXPIRED,
                partner := p.partner.(state := p.partner.state.(shortTimeout := true, inSync := false)));
    NotMatchedKeeps(q);
  }

  lemma DisabledKeeps(p: Port)
    requires MuxInv(p)
    ensures MuxInv(RxDisabled(p)) && RxInv(RxDisabled(p))
    ensures RxDisabled(p).cfg == p.cfg && RxDisabled(p).up == p.up
    ensures RxDisabled(p).rx == DISABLED && !RxDisabled(p).rxTimer
    ensures TargetLag(RxDisabled(p)) == TargetLag(p)
    ensures Individual(RxDisabled(p)) == Individual(p)
    ensures RxDisabled(p).mux != COLLECTING_DISTRIBUTING
  {
    var q := p.(rx := DISABLED, rxTimer := false,
                partner := p.partner.(state := p.partner.state.(inSync := false)));
    NotMatchedKeeps(q);
  }

  lemma RecordPDUKeeps(p: Port, pdu: LACPDU)
    requires MuxInv(p) && p.rx == CURRENT
    ensures MuxInv(RecordPDU(p, pdu)) && RxInv(RecordPDU(p, pdu))
    ensures var r := RecordPDU(p, pdu);
            r.cfg == p.cfg && r.up == p.up && r.rx == p.rx && r.rxTimer == p.rxTimer
    ensures var r := RecordPDU(p, pdu);
            SameParticipant(r.partner, pdu.actorInfo)
            && r.partner.state.aggregatable == pdu.actorInfo.state.aggregatable
  {
    var matches := PduMatches(p, pdu);
    var q := p.(partner := pdu.actorInfo.(state := pdu.actorInfo.state.(inSync := matches)),
                actor := p.actor.(defaulted := false));
    MatchedKeeps(q);
    NotMatchedKeeps(q);
  }

  // ---------------------------------------------------------------------------
  // All ports
  // ---------------------------------------------------------------------------

  /** Every entry of the selection map names the group its port belongs to right now. */
  predicate SelectionsCurrent(w: World)
  {
    Closed(w) && forall p :: p in w.sel ==> w.sel[p].lagID == TargetLag(w.ports[p])
  }

  /** Only a port that has heard from its partner holds a selection. */
  predicate SelectionsHeard(w: World)
  {
    Closed(w) && forall p :: p in w.sel ==> w.ports[p].rx == CURRENT || w.ports[p].rx == EXPIRED
  }

  predicate HasIndividual(w: World, lag: LagID)
    requires Closed(w)
  {
    exists q :: q in w.sel && w.sel[q].lagID == lag && Individual(w.ports[q])
  }

  predicate MeetsMinLinks(w: World, p: PortID)
    requires Closed(w) && p in w.sel
  {
    || HasIndividual(w, w.sel[p].lagID)
    || |Members(w, w.sel[p].lagID, SELECTED)| >= w.ports[p].cfg.minLinkCount
  }

  /** A group without an individual member has no SELECTED port or at least the minimum. */
  predicate MinLinks(w: World)
  {
    && Closed(w)
    && forall p :: p in w.sel && w.sel[p].state == SELECTED ==> MeetsMinLinks(w, p)
  }

  predicate MuxesSound(w: World)
  {
    forall p :: p in w.ports ==> MuxInv(w.ports[p])
  }

  predicate SelectorInv(w: World)
  {
    Closed(w) && MuxesSound(w) && SelectionsCurrent(w) && MinLinks(w)
  }

  predicate Inv(w: World)
  {
    && SharedMinLinks(w)
    && SelectorInv(w)
    && SelectionsHeard(w)
    && forall p :: p in w.ports ==> PortInv(w.ports[p])
  }

  /** Only mux machines moved between `w` and `w'`. */
  predicate OnlySignals(w: World, w': World)
  {
    && w'.ports.Keys == w.ports.Keys
    && forall q :: q in w.ports ==> Signalled(w.ports[q], w'.ports[q])
  }

  predicate SameLags(w: World, w': World)
  {
    forall q :: q in w'.sel ==> q in w.sel && w'.sel[q].lagID == w.sel[q].lagID
  }

  lemma StandbyAllSignals(w: World, s: set<PortID>)
    ensures OnlySignals(w, StandbyAll(w, s))
    ensures SameLags(w, StandbyAll(w, s)) && StandbyAll(w, s).sel.Keys == w.sel.Keys
  {
    forall q | q in w.ports ensures Signalled(w.ports[q], StandbyAll(w, s).ports[q]) {
      StandbyKeeps(w.ports[q]);
    }
  }

  lemma SelectedAllSignals(w: World, s: set<PortID>)
    requires SelectionsCurrent(w) && s <= w.sel.Keys
    ensures OnlySignals(w, SelectedAll(w, s))
    ensures SameLags(w, SelectedAll(w, s)) && SelectedAll(w, s).sel.Keys == w.sel.Keys
  {
    forall q | q in w.ports ensures Signalled(w.ports[q], SelectedAll(w, s).ports[q]) {
      SelectedKeeps(w.ports[q]);
      if q in s { assert w.sel[q].lagID.actorKey == w.ports[q].cfg.aggregatePortID; }
    }
  }

  lemma DeselectSignals(w: World, p: PortID)
    requires p in w.ports
    ensures OnlySignals(w, Deselect(w, p)) && SameLags(w, Deselect(w, p))
    ensures Deselect(w, p).sel.Keys == w.sel.Keys - {p}
    ensures Deselect(w, p).ports[p] == w.ports[p]
  {
    if p in w.sel {
      var rest := w.(sel := w.sel - {p});
      StandbyAllSignals(rest, Members(rest, w.sel[p].lagID, SELECTED));
    }
  }

  lemma UnselectedSignals(w: World, p: PortID)
    requires p in w.ports
    ensures OnlySignals(w, Unselected(w, p)) && SameLags(w, Unselected(w, p))
    ensures Unselected(w, p).sel.Keys == w.sel.Keys - {p}
    ensures Unselected(w, p).ports[p] == MuxUnselected(w.ports[p])
  {
    DeselectSignals(w, p);
    UnselectedKeeps(w.ports[p]);
  }

  /** Signals leave the facts that only depend on received information alone. */
  lemma SignalsKeep(w: World, w': World)
    requires OnlySignals(w, w') && SameLags(w, w')
    ensures Closed(w) ==> Closed(w')
    ensures MuxesSound(w) ==> MuxesSound(w')
    ensures SelectionsCurrent(w) ==> SelectionsCurrent(w')
    ensures SelectionsHeard(w) ==> SelectionsHeard(w')
  {
    SignalsKeepMuxes(w, w');
    SignalsKeepReceive(w, w');
    assert forall q :: q in w.ports ==> SameReceive(w.ports[q], w'.ports[q]);
  }

  lemma SignalsKeepMuxes(w: World, w': World)
    requires OnlySignals(w, w')
    ensures MuxesSound(w) ==> MuxesSound(w')
  {
    forall q | q in w.ports && MuxInv(w.ports[q]) ensures MuxInv(w'.ports[q]) {
      assert Signalled(w.ports[q], w'.ports[q]);
    }
  }

  lemma SignalsKeepReceive(w: World, w': World)
    requires OnlySignals(w, w')
    ensures forall q :: q in w.ports ==> SameReceive(w.ports[q], w'.ports[q])
  {
    forall q | q in w.ports ensures SameReceive(w.ports[q], w'.ports[q]) {
      assert Signalled(w.ports[q], w'.ports[q]);
    }
  }

  predicate SameConfigs(w: World, w': World)
  {
    w'.ports.Keys == w.ports.Keys && forall q :: q in w.ports ==> w'.ports[q].cfg == w.ports[q].cfg
  }

  lemma SignalsKeepConfigs(w: World, w': World)
    requires OnlySignals(w, w')
    ensures SameConfigs(w, w')
  {
    forall q | q in w.ports ensures w'.ports[q].cfg == w.ports[q].cfg {
      assert Signalled(w.ports[q], w'.ports[q]);
    }
  }

  lemma SameConfigsShareMinLinks(w: World, w': World)
    requires SharedMinLinks(w) && SameConfigs(w, w')
    ensures SharedMinLinks(w')
  {
    forall p, q | p in w'.ports && q in w'.ports
                  && w'.ports[p].cfg.aggregatePortID == w'.ports[q].cfg.aggregatePortID
      ensures w'.ports[p].cfg.minLinkCount == w'.ports[q].cfg.minLinkCount
    {
      assert w.ports[p].cfg.aggregatePortID == w.ports[q].cfg.aggregatePortID;
    }
  }

  lemma SupersetCard(a: set<PortID>, b: set<PortID>)
    requires a <= b
    ensures |a| <= |b|
  {
    assert b == a + (b - a);
  }

  /** Growing a group keeps the minimum-links rule for it. */
  lemma MoreSelected(w: World, w': World, p: PortID)
    requires MinLinks(w) && Closed(w') && OnlySignals(w, w')
    requires p in w.sel && w.sel[p].state == SELECTED
    requires p in w'.sel && w'.sel[p] == w.sel[p]
    requires forall q :: q in w.sel && w.sel[q].lagID == w.sel[p].lagID ==>
                           q in w'.sel && w'.sel[q].lagID == w.sel[q].lagID
                           && (w.sel[q].state == SELECTED ==> w'.sel[q].state == SELECTED)
    ensures MeetsMinLinks(w', p)
  {
    var lag := w.sel[p].lagID;
    assert Signalled(w.ports[p], w'.ports[p]);
    if HasIndividual(w, lag) {
      var q :| q in w.sel && w.sel[q].lagID == lag && Individual(w.ports[q]);
      assert Signalled(w.ports[q], w'.ports[q]);
      assert Individual(w'.ports[q]);
    } else {
      SupersetCard(Members(w, lag, SELECTED), Members(w', lag, SELECTED));
    }
  }

  /** `p` has left its group and every other member of the group is on STANDBY. */
  predicate GroupDemoted(w: World, w': World, p: PortID)
    requires p in w.sel
  {
    && w'.sel.Keys == w.sel.Keys - {p}
    && forall q :: q in w'.sel ==>
                     w'.sel[q] == if w.sel[q].lagID == w.sel[p].lagID then w.sel[q].(state := STANDBY) else w.sel[q]
  }

  lemma DeselectDemotes(w: World, p: PortID)
    requires p in w.sel
    ensures GroupDemoted(w, Deselect(w, p), p)
  {
    var w' := Deselect(w, p);
    forall q | q in w'.sel
      ensures w'.sel[q] == if w.sel[q].lagID == w.sel[p].lagID then w.sel[q].(state := STANDBY) else w.sel[q]
    {
      if w.sel[q].state == STANDBY { assert w.sel[q].(state := STANDBY) == w.sel[q]; }
    }
  }

  lemma DemotedMinLinks(w: World, w': World, p: PortID)
    requires MinLinks(w) && p in w.sel && Closed(w') && OnlySignals(w, w') && GroupDemoted(w, w', p)
    ensures MinLinks(w')
  {
    forall q | q in w'.sel && w'.sel[q].state == SELECTED
      ensures MeetsMinLinks(w', q)
    {
      assert w.sel[q] == w'.sel[q] && w.sel[q].lagID != w.sel[p].lagID;
      MoreSelected(w, w', q);
    }
  }

  lemma DeselectMinLinks(w: World, p: PortID)
    requires MinLinks(w) && p in w.ports
    ensures MinLinks(Deselect(w, p))
  {
    if p in w.sel {
      DeselectSignals(w, p);
      SignalsKeep(w, Deselect(w, p));
      DeselectDemotes(w, p);
      DemotedMinLinks(w, Deselect(w, p), p);
    }
  }

  lemma SignalsKeepMinLinks(w: World, w': World)
    requires MinLinks(w) && OnlySignals(w, w') && w'.sel == w.sel
    ensures MinLinks(w')
  {
    SignalsKeep(w, w');
    forall q | q in w'.sel && w'.sel[q].state == SELECTED
      ensures MeetsMinLinks(w', q)
    {
      MoreSelected(w, w', q);
    }
  }

  lemma UnselectedKeepsSelector(w: World, p: PortID)
    requires SelectorInv(w) && p in w.ports
    ensures SelectorInv(Unselected(w, p))
  {
    var w1, w2 := Deselect(w, p), Unselected(w, p);
    UnselectedSignals(w, p);
    SignalsKeep(w, w2);
    assert MinLinks(w2) by {
      DeselectMinLinks(w, p);
      DeselectSignals(w, p);
      UnselectedKeeps(w1.ports[p]);
      SignalsKeepMinLinks(w1, w2);
    }
  }

  /** The group of `port` is that of the port it replaces, or it holds no selection. */
  predicate SameGroup(w: World, p: PortID, port: Port)
    requires p in w.ports
  {
    && port.cfg == w.ports[p].cfg
    && (p in w.sel ==>
          TargetLag(port) == TargetLag(w.ports[p]) && Individual(port) == Individual(w.ports[p]))
  }

  lemma SetPortKeepsMinLinks(w: World, p: PortID, port: Port)
    requires MinLinks(w) && p in w.ports && SameGroup(w, p, port)
    ensures MinLinks(SetPort(w, p, port))
  {
    var w' := SetPort(w, p, port);
    assert Closed(w');
    forall q | q in w'.sel && w'.sel[q].state == SELECTED
      ensures MeetsMinLinks(w', q)
    {
      var lag := w.sel[q].lagID;
      assert MeetsMinLinks(w, q);
      if HasIndividual(w, lag) {
        var r :| r in w.sel && w.sel[r].lagID == lag && Individual(w.ports[r]);
        assert Individual(w'.ports[r]);
      } else {
        assert Members(w', lag, SELECTED) == Members(w, lag, SELECTED);
      }
    }
  }

  /** A change to one port's receive side that leaves its group alone keeps the selector facts. */
  lemma SetPortKeepsSelector(w: World, p: PortID, port: Port)
    requires SelectorInv(w) && p in w.ports && SameGroup(w, p, port) && MuxInv(port)
    ensures SelectorInv(SetPort(w, p, port))
  {
    SetPortKeepsMinLinks(w, p, port);
  }

  lemma InsertKeeps(w: World, p: PortID, state: SelectionState)
    requires SelectionsCurrent(w) && MuxesSound(w) && p in w.ports && p !in w.sel
    ensures var w1 := InsertSelection(w, p, Selection(TargetLag(w.ports[p]), state));
            w1.ports == w.ports && SelectionsCurrent(w1) && MuxesSound(w1)
  {
  }

  lemma JoinSelections(w: World, p: PortID, lag: LagID)
    requires p in w.ports && p !in w.sel
    ensures ChooseSelected(w, p, lag).sel == w.sel[p := Selection(lag, SELECTED)]
    ensures ChooseStandby(w, p, lag).sel == w.sel[p := Selection(lag, STANDBY)]
  {
  }

  lemma ChooseSelectedSignals(w: World, p: PortID)
    requires SelectionsCurrent(w) && MuxesSound(w) && p in w.ports && p !in w.sel
    ensures var w' := ChooseSelected(w, p, TargetLag(w.ports[p]));
            && OnlySignals(w, w') && SelectionsCurrent(w') && MuxesSound(w')
            && w'.sel == w.sel[p := Selection(TargetLag(w.ports[p]), SELECTED)]
  {
    var w1 := InsertSelection(w, p, Selection(TargetLag(w.ports[p]), SELECTED));
    InsertKeeps(w, p, SELECTED);
    var w' := SelectedAll(w1, {p});
    assert OnlySignals(w1, w') && SameLags(w1, w') by { SelectedAllSignals(w1, {p}); }
    assert SelectionsCurrent(w') && MuxesSound(w') by { SignalsKeep(w1, w'); }
    assert OnlySignals(w, w');
    JoinSelections(w, p, TargetLag(w.ports[p]));
  }

  lemma ChooseSelectedKeeps(w: World, p: PortID)
    requires SelectorInv(w) && p in w.ports && p !in w.sel && Individual(w.ports[p])
    ensures SelectorInv(ChooseSelected(w, p, TargetLag(w.ports[p])))
  {
    var w' := ChooseSelected(w, p, TargetLag(w.ports[p]));
    ChooseSelectedSignals(w, p);
    forall q | q in w'.sel && w'.sel[q].state == SELECTED
      ensures MeetsMinLinks(w', q)
    {
      if q == p {
        assert Signalled(w.ports[p], w'.ports[p]);
        assert Individual(w'.ports[p]);
      } else {
        MoreSelected(w, w', q);
      }
    }
  }

  lemma ChooseStandbySignals(w: World, p: PortID)
    requires SelectionsCurrent(w) && MuxesSound(w) && p in w.ports && p !in w.sel
    ensures var w' := ChooseStandby(w, p, TargetLag(w.ports[p]));
            && OnlySignals(w, w') && SelectionsCurrent(w') && MuxesSound(w')
            && w'.sel == w.sel[p := Selection(TargetLag(w.ports[p]), STANDBY)]
  {
    var w1 := InsertSelection(w, p, Selection(TargetLag(w.ports[p]), STANDBY));
    InsertKeeps(w, p, STANDBY);
    var w' := StandbyAll(w1, {p});
    assert OnlySignals(w1, w') && SameLags(w1, w') by { StandbyAllSignals(w1, {p}); }
    assert SelectionsCurrent(w') && MuxesSound(w') by { SignalsKeep(w1, w'); }
    assert OnlySignals(w, w');
    JoinSelections(w, p, TargetLag(w.ports[p]));
  }

  lemma ChooseStandbyKeeps(w: World, p: PortID)
    requires SelectorInv(w) && p in w.ports && p !in w.sel
    ensures SelectorInv(ChooseStandby(w, p, TargetLag(w.ports[p])))
  {
    var w' := ChooseStandby(w, p, TargetLag(w.ports[p]));
    ChooseStandbySignals(w, p);
    forall q | q in w'.sel && w'.sel[q].state == SELECTED
      ensures MeetsMinLinks(w', q)
    {
      MoreSelected(w, w', q);
    }
  }

  lemma PromoteKeeps(w: World, p: PortID)
    requires SharedMinLinks(w) && SelectorInv(w) && p in w.ports && p in w.sel
    ensures var w' := Promote(w, TargetLag(w.ports[p]), w.ports[p].cfg.minLinkCount);
            SelectorInv(w') && OnlySignals(w, w') && SameLags(w, w') && w'.sel.Keys == w.sel.Keys
  {
    var lag, n := TargetLag(w.ports[p]), w.ports[p].cfg.minLinkCount;
    var waiting := Members(w, lag, STANDBY);
    var w' := Promote(w, lag, n);
    if |waiting| == n {
      SelectedAllSignals(w, waiting);
      SignalsKeep(w, w');
      forall q | q in w'.sel && w'.sel[q].state == SELECTED
        ensures MeetsMinLinks(w', q)
      {
        if q in waiting {
          SupersetCard(waiting, Members(w', lag, SELECTED));
          assert Signalled(w.ports[q], w'.ports[q]);
        } else {
          MoreSelected(w, w', q);
        }
      }
    } else {
      forall q | q in w.ports ensures Signalled(w.ports[q], w'.ports[q]) {}
    }
  }

  lemma SelectKeeps(w: World, p: PortID)
    requires SharedMinLinks(w) && SelectorInv(w) && p in w.ports
    ensures SelectorInv(Select(w, p)) && OnlySignals(w, Select(w, p))
    ensures Select(w, p).sel.Keys <= w.sel.Keys + {p}
  {
    var port := w.ports[p];
    var lag := TargetLag(port);
    forall q | q in w.ports ensures Signalled(w.ports[q], w.ports[q]) {}
    if SelectionStands(w, p) {
    } else if Individual(port) {
      ChooseSelectedSignals(w, p);
      ChooseSelectedKeeps(w, p);
    } else if LagInUse(w, lag) || !KeyInUse(w, port.cfg.aggregatePortID) {
      var w1 := ChooseStandby(w, p, lag);
      ChooseStandbySignals(w, p);
      ChooseStandbyKeeps(w, p);
      assert Signalled(w.ports[p], w1.ports[p]);
      SignalsKeepConfigs(w, w1);
      SameConfigsShareMinLinks(w, w1);
      PromoteKeeps(w1, p);
      SignalsCompose(w, w1, Select(w, p));
    }
  }

  lemma SignalsCompose(w0: World, w1: World, w2: World)
    requires OnlySignals(w0, w1) && OnlySignals(w1, w2)
    ensures OnlySignals(w0, w2)
  {
    forall q | q in w0.ports ensures Signalled(w0.ports[q], w2.ports[q]) {
      assert Signalled(w0.ports[q], w1.ports[q]);
      assert Signalled(w1.ports[q], w2.ports[q]);
    }
  }
}
