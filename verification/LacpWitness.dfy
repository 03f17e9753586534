/** Runs that show what LACP does not promise: a port that forwards although it holds no selection,
    once for each way there, one that forwards on STANDBY, and one aggregate split between two
    groups. */
module LacpWitness {
  import opened LacpTypes
  import opened LacpMachines
  import opened LacpInvariants
  import opened LacpRuns
  import opened LacpForwarding
  import opened LacpKeys
  import LacpMux
  import LacpReceive
  import LacpSelection

  ghost predicate Ends(worlds: seq<World>, events: seq<Event>, w: World)
  {
    IsRun(worlds, events) && worlds[|events|] == w
  }

  /** Some run ends in `w`. */
  ghost predicate Reachable(w: World)
  {
    exists worlds, events :: Ends(worlds, events, w)
  }

  lemma Extend(worlds: seq<World>, events: seq<Event>, e: Event, w: World)
    requires IsRun(worlds, events) && StepsTo(worlds[|events|], e, w)
    ensures IsRun(worlds + [w], events + [e])
  {
    var ws, es := worlds + [w], events + [e];
    forall i | 0 <= i < |es| ensures StepsTo(ws[i], es[i], ws[i + 1]) {
      if i < |events| {
        assert StepsTo(worlds[i], events[i], worlds[i + 1]);
      }
    }
  }

  lemma Reach(w: World, e: Event, w': World)
    requires Reachable(w) && StepsTo(w, e, w')
    ensures Reachable(w')
  {
    var worlds, events :| Ends(worlds, events, w);
    Extend(worlds, events, e, w');
    assert Ends(worlds + [w'], events + [e], w');
  }

  lemma ReachableInv(w: World)
    requires Reachable(w)
    ensures Inv(w)
  {
    var worlds, events :| Ends(worlds, events, w);
    RunInv(worlds, events, |events|);
  }

  /** Only port `p` differs, and not in its configuration; the selections are the same. */
  predicate OnlyPort(w: World, w': World, p: PortID)
  {
    && p in w.ports && p in w'.ports && w'.ports == w.ports[p := w'.ports[p]]
    && w'.ports[p].cfg == w.ports[p].cfg && w'.sel == w.sel
  }

  lemma Starts(w: World, p: PortID) returns (w': World)
    requires Reachable(w) && p in w.ports && w.sel == map[] && w.ports[p] == NewPort(w.ports[p].cfg, false)
    ensures Reachable(w') && OnlyPort(w, w', p)
    ensures !w'.ports[p].up && w'.ports[p].rx == DISABLED && w'.ports[p].mux == DETACHED
  {
    w' := Initialize(w, p);
    Reach(w, Start(p), w');
  }

  lemma ComesUp(w: World, p: PortID) returns (w': World)
    requires Reachable(w) && p in w.ports && !w.ports[p].up && w.ports[p].rx == DISABLED && w.ports[p].mux == DETACHED
    ensures Reachable(w') && OnlyPort(w, w', p)
    ensures w'.ports[p].rx == EXPIRED && w'.ports[p].mux == DETACHED
  {
    w' := SetPort(w, p, RxExpired(w.ports[p].(up := true)));
    Reach(w, PortUp(p), w');
  }

  lemma RecordsQuietly(w: World, p: PortID, pdu: LACPDU)
    requires p in w.ports && p !in w.sel && w.ports[p].mux == DETACHED
    requires !pdu.actorInfo.state.aggregatable && pdu.actorInfo.state.inSync
    ensures var w1 := Recorded(w, p, pdu);
            && OnlyPort(w, w1, p) && w1.ports[p].mux == DETACHED && w1.ports[p].matched
            && w1.ports[p].rx == CURRENT && !w1.ports[p].partner.state.aggregatable
            && w1.ports[p].partner.key == pdu.actorInfo.key
  {
  }

  lemma SelectsAlone(w: World, p: PortID)
    requires p in w.ports && p !in w.sel && !w.ports[p].partner.state.aggregatable && w.ports[p].mux == DETACHED
    ensures var w' := Select(w, p); var lag := TargetLag(w.ports[p]);
            && w'.sel == w.sel[p := Selection(lag, SELECTED)]
            && w'.ports == w.ports[p := MuxSelected(w.ports[p], lag.actorKey)]
  {
    JoinSelections(w, p, TargetLag(w.ports[p]));
  }

  lemma CurrentAlone(w: World, p: PortID, pdu: LACPDU)
    requires p in w.ports && p !in w.sel && w.ports[p].mux == DETACHED
    requires !pdu.actorInfo.state.aggregatable && pdu.actorInfo.state.inSync
    ensures var w' := Current(w, p, pdu);
            && p in w'.sel && OnlyPort(w, w'.(sel := w.sel), p)
            && w'.sel == w.sel[p := w'.sel[p]] && w'.sel[p].lagID.actorKey == w.ports[p].cfg.aggregatePortID
            && w'.sel[p].lagID.partnerKey == pdu.actorInfo.key && !w'.ports[p].partner.state.aggregatable
            && w'.ports[p].mux == WAITING && w'.ports[p].muxTimer && w'.ports[p].matched && w'.ports[p].rx == CURRENT
  {
    RecordsQuietly(w, p, pdu);
    SelectsAlone(Recorded(w, p, pdu), p);
  }

  lemma Hears(w: World, p: PortID, pdu: LACPDU) returns (w': World)
    requires Reachable(w) && p in w.ports && w.ports[p].rx != DISABLED && w.ports[p].rx != INITIALIZED
    ensures Reachable(w') && w' == Current(w, p, pdu)
  {
    w' := Current(w, p, pdu);
    assert StepsTo(w, Received(p, pdu), w');
    Reach(w, Received(p, pdu), w');
  }

  /** A PDU from an individual partner in sync: the port is selected and waits. */
  lemma JoinsAlone(w: World, p: PortID, pdu: LACPDU) returns (w': World)
    requires Reachable(w) && p in w.ports && p !in w.sel && w.ports[p].rx == EXPIRED && w.ports[p].mux == DETACHED
    requires !pdu.actorInfo.state.aggregatable && pdu.actorInfo.state.inSync
    ensures Reachable(w') && p in w'.sel && OnlyPort(w, w'.(sel := w.sel), p)
    ensures w'.sel == w.sel[p := w'.sel[p]] && w'.sel[p].lagID.actorKey == w.ports[p].cfg.aggregatePortID
    ensures w'.sel[p].lagID.partnerKey == pdu.actorInfo.key && !w'.ports[p].partner.state.aggregatable
    ensures w'.ports[p].mux == WAITING && w'.ports[p].muxTimer && w'.ports[p].matched && w'.ports[p].rx == CURRENT
  {
    w' := Hears(w, p, pdu);
    CurrentAlone(w, p, pdu);
  }

  /** The wait is over: the port attaches, and distributes if it is matched. */
  lemma WaitEnds(w: World, p: PortID) returns (w': World)
    requires Reachable(w) && p in w.ports && w.ports[p].muxTimer
    ensures Reachable(w') && OnlyPort(w, w', p) && w'.ports[p].rx == w.ports[p].rx
    ensures w'.ports[p].partner == w.ports[p].partner
    ensures w'.ports[p].mux == if w.ports[p].matched then COLLECTING_DISTRIBUTING else ATTACHED
  {
    w' := SetPort(w, p, MuxTimeout(w.ports[p]));
    Reach(w, MuxTimerFired(p), w');
  }

  const SYSTEM: SystemID := [0, 0, 0, 0, 0, 1]
  const FIRST := Config(1, 10, 1, 1, SYSTEM, true, false, true, 1)
  const SECOND := Config(2, 10, 1, 1, SYSTEM, true, false, true, 1)
  const THIRD := Config(3, 10, 1, 1, SYSTEM, true, false, true, 1)
  const ALONE := LACPDU(ParticipantInfo(1, SYSTEM, 7, 1, 1, NO_FLAGS.(inSync := true)), DEFAULT_PARTICIPANT)
  const GROUPED := LACPDU(ParticipantInfo(1, SYSTEM, 8, 1, 1, NO_FLAGS.(inSync := true, aggregatable := true)),
                          ParticipantInfo(1, SYSTEM, 10, 1, 1, NO_FLAGS))
  const OTHER := LACPDU(ParticipantInfo(1, SYSTEM, 9, 1, 1, NO_FLAGS.(aggregatable := true)), DEFAULT_PARTICIPANT)
  const ZERO := LACPDU(ParticipantInfo(1, SYSTEM, 8, 0, 0, NO_FLAGS.(inSync := true)), DEFAULT_PARTICIPANT)
  const LAGGING := GROUPED.(actorInfo := GROUPED.actorInfo.(state := NO_FLAGS.(aggregatable := true)))

  lemma Begins() returns (w: World)
    ensures Reachable(w) && w.sel == map[] && w.ports.Keys == {1, 2, 3}
    ensures w.ports[1] == NewPort(FIRST, false) && w.ports[2] == NewPort(SECOND, false)
    ensures w.ports[3] == NewPort(THIRD, false)
  {
    w := World(map[1 := NewPort(FIRST, false), 2 := NewPort(SECOND, false), 3 := NewPort(THIRD, false)], map[]);
    assert Ends([w], [], w);
  }

  /** The port is up and has not heard from anyone. */
  predicate Waits(w: World, p: PortID, cfg: Config)
  {
    p in w.ports && p !in w.sel && w.ports[p].cfg == cfg && w.ports[p].rx == EXPIRED && w.ports[p].mux == DETACHED
  }

  /** Three ports of one aggregate. */
  lemma AllUp() returns (w: World)
    ensures Reachable(w) && w.sel == map[] && w.ports.Keys == {1, 2, 3}
    ensures Waits(w, 1, FIRST) && Waits(w, 2, SECOND) && Waits(w, 3, THIRD)
  {
    w := Begins();
    w := Starts(w, 1);
    w := Starts(w, 2);
    w := Starts(w, 3);
    w := ComesUp(w, 1);
    w := ComesUp(w, 2);
    w := ComesUp(w, 3);
  }

  /** Both ports hold selections, and port 1 can still be moved away from its group. */
  predicate Movable(w: World)
  {
    && w.sel.Keys == {1, 2} && 1 in w.ports && w.ports[1].cfg == FIRST
    && w.sel[2].lagID.actorKey == 10 && w.sel[2].lagID.partnerKey == 7
    && w.ports[1].rx == CURRENT && !w.ports[1].partner.state.aggregatable
  }

  lemma BothWait() returns (w: World)
    ensures Reachable(w) && Movable(w)
    ensures w.ports[1].mux == WAITING && w.ports[1].muxTimer && w.ports[1].matched
  {
    w := AllUp();
    w := JoinsAlone(w, 1, ALONE);
    w := JoinsAlone(w, 2, ALONE);
  }

  lemma OneDistributes() returns (w: World)
    ensures Reachable(w) && Movable(w) && w.ports[1].mux == COLLECTING_DISTRIBUTING
  {
    w := BothWait();
    w := WaitEnds(w, 1);
  }

  /** A PDU that moves port 1 to a group nobody holds, while port 2 holds its aggregate. */
  lemma MovesAway(w: World, pdu: LACPDU)
    requires Movable(w) && pdu.actorInfo.key == 8 && pdu.actorInfo.state.aggregatable
    ensures ShutOut(w, 1, pdu) && PartnerChanged(w.ports[1], pdu)
  {
    assert KeyHeldByOther(w, 1, 10);
  }

  lemma Forwards(w: World, p: PortID)
    requires Reachable(w) && Stray(w, p)
    ensures Forwarding(w.ports[p].commands) == {w.ports[p].cfg.aggregatePortID}
  {
    ReachableInv(w);
    assert PortInv(w.ports[p]);
  }

  lemma Strays(w: World, p: PortID, pdu: LACPDU) returns (w': World)
    requires Reachable(w) && p in w.ports && w.ports[p].rx != DISABLED && w.ports[p].rx != INITIALIZED
    requires BeginsToStray(w, Received(p, pdu), p)
    ensures Reachable(w') && Stray(w', p)
  {
    w' := Hears(w, p, pdu);
    ReachableInv(w);
    CurrentBegins(w, p, pdu);
  }

  lemma CurrentBegins(w: World, p: PortID, pdu: LACPDU)
    requires Inv(w) && p in w.ports && BeginsToStray(w, Received(p, pdu), p)
    ensures Stray(Current(w, p, pdu), p)
  {
    CurrentStrays(w, p, pdu);
    RecordedMux(w, p, pdu);
  }

  /** First way: a PDU moves a port that forwards to a group it is shut out of. */
  lemma MovedWhileForwarding() returns (w: World)
    ensures Reachable(w) && Stray(w, 1) && Forwarding(w.ports[1].commands) == {w.ports[1].cfg.aggregatePortID}
  {
    var w0 := OneDistributes();
    MovesAway(w0, GROUPED);
    assert PduMatches(w0.ports[1], GROUPED);
    w := Strays(w0, 1, GROUPED);
    Forwards(w, 1);
  }

  /** A waiting port that is moved and shut out keeps its timer. */
  lemma LeavesWhileWaiting(w: World, p: PortID, pdu: LACPDU)
    requires Inv(w) && p in w.ports && w.ports[p].muxTimer && ShutOut(w, p, pdu) && PartnerChanged(w.ports[p], pdu)
    ensures var w' := Current(w, p, pdu);
            && p !in w'.sel && w'.ports[p].muxTimer && w'.ports[p].matched == PduMatches(w.ports[p], pdu)
            && w'.ports[p] == Recorded(w, p, pdu).ports[p].(rxTimer := true)
  {
    LosesSelection(w, p, pdu);
    RecordedTimer(w, p, pdu);
  }

  lemma UnselectedOwn(w: World, p: PortID)
    requires p in w.ports
    ensures Unselected(w, p).ports[p] == MuxUnselected(w.ports[p])
  {
  }

  lemma HeardTimer(p: Port, pdu: LACPDU)
    ensures Heard(p, pdu).muxTimer == p.muxTimer && Heard(p, pdu).matched == PduMatches(p, pdu)
    ensures Heard(p, pdu).rx == p.rx
  {
    var q := p.(partner := pdu.actorInfo.(state := pdu.actorInfo.state.(inSync := PduMatches(p, pdu))),
                actor := p.actor.(defaulted := false));
    SignalsKeepTimer(q);
    assert RecordPDU(p, pdu) == if PduMatches(p, pdu) then MuxMatched(q) else MuxNotMatched(q);
  }

  lemma SignalsKeepTimer(p: Port)
    ensures MuxMatched(p).muxTimer == p.muxTimer && MuxMatched(p).matched && MuxMatched(p).rx == p.rx
    ensures MuxNotMatched(p).muxTimer == p.muxTimer && !MuxNotMatched(p).matched && MuxNotMatched(p).rx == p.rx
  {
  }

  lemma UnselectedTimer(p: Port, pdu: LACPDU)
    ensures MuxUnselected(p).muxTimer == p.muxTimer && MuxUnselected(p).rx == p.rx && MuxUnselected(p).cfg == p.cfg
    ensures PduMatches(MuxUnselected(p), pdu) == PduMatches(p, pdu)
  {
  }

  lemma RecordedTimer(w: World, p: PortID, pdu: LACPDU)
    requires p in w.ports
    ensures var r := Recorded(w, p, pdu).ports[p];
            r.muxTimer == w.ports[p].muxTimer && r.matched == PduMatches(w.ports[p], pdu) && r.rx == CURRENT
  {
    var port := w.ports[p].(rx := CURRENT);
    var w0 := SetPort(w, p, port);
    UnselectedOwn(w0, p);
    var u := UpdateSelected(w0, p, pdu).ports[p];
    assert u == port || u == MuxUnselected(port);
    assert Recorded(w, p, pdu).ports[p] == Heard(u, pdu);
    UnselectedTimer(port, pdu);
    HeardTimer(u, pdu);
  }

  /** Second way: a port is moved while it waits, and distributes when the wait ends. */
  lemma WaitEndsInNoGroup() returns (w: World)
    ensures Reachable(w) && Stray(w, 1) && Forwarding(w.ports[1].commands) == {w.ports[1].cfg.aggregatePortID}
  {
    var w0 := BothWait();
    ReachableInv(w0);
    MovesAway(w0, GROUPED);
    assert PduMatches(w0.ports[1], GROUPED);
    w := Hears(w0, 1, GROUPED);
    LeavesWhileWaiting(w0, 1, GROUPED);
    w := WaitEnds(w, 1);
    Forwards(w, 1);
  }

  /** Port 1 is in no group, out of sync with the partner that `GROUPED` comes from. */
  ghost predicate Lags(w: World)
  {
    && Reachable(w) && 1 in w.ports && 1 !in w.sel && w.ports[1].cfg == FIRST && w.ports[1].rx == CURRENT
    && !PartnerChanged(w.ports[1], GROUPED) && ShutOut(w, 1, GROUPED)
  }

  lemma LagsBehind() returns (w: World)
    ensures Lags(w) && w.ports[1].muxTimer && !w.ports[1].matched
  {
    var w0 := BothWait();
    assert Inv(w0) by { ReachableInv(w0); }
    assert ShutOut(w0, 1, LAGGING) && PartnerChanged(w0.ports[1], LAGGING) by { MovesAway(w0, LAGGING); }
    assert !PduMatches(w0.ports[1], LAGGING);
    w := Hears(w0, 1, LAGGING);
    assert 1 !in w.sel && w.ports[1].muxTimer && !w.ports[1].matched by { LeavesWhileWaiting(w0, 1, LAGGING); }
    StillShutOut(w0, w);
  }

  lemma AttachedInNoGroup() returns (w: World)
    ensures Lags(w) && w.ports[1].mux == ATTACHED
  {
    var w0 := LagsBehind();
    w := WaitEnds(w0, 1);
    assert Inv(w0) && Inv(w) by { ReachableInv(w0); ReachableInv(w); }
    SamePlaces(w0, w);
  }

  lemma SamePlaces(w: World, w': World)
    requires Inv(w) && Inv(w') && OnlyPort(w, w', 1) && ShutOut(w, 1, GROUPED)
    ensures ShutOut(w', 1, GROUPED)
  {
    assert MuxInv(w.ports[1]) && MuxInv(w'.ports[1]);
    assert LagFrom(ActorInfo(w'.ports[1]), GROUPED.actorInfo) == LagFrom(ActorInfo(w.ports[1]), GROUPED.actorInfo);
  }

  lemma StillShutOut(w: World, w': World)
    requires Inv(w) && Movable(w) && w' == Current(w, 1, LAGGING)
    requires ShutOut(w, 1, LAGGING) && PartnerChanged(w.ports[1], LAGGING)
    ensures w'.ports[1].cfg == FIRST && ShutOut(w', 1, GROUPED) && !PartnerChanged(w'.ports[1], GROUPED)
    ensures w'.ports[1].rx == CURRENT
  {
    LosesSelection(w, 1, LAGGING);
    RecordedSelections(w, 1, LAGGING);
    RecordedKeeps(w, 1, LAGGING);
    assert 2 in w'.sel && w'.sel[2].lagID == w.sel[2].lagID;
    assert KeyHeldByOther(w', 1, 10);
  }

  /** Third way: an attached port in no group comes into sync while it is shut out. */
  lemma MatchedInNoGroup() returns (w: World)
    ensures Reachable(w) && Stray(w, 1) && Forwarding(w.ports[1].commands) == {w.ports[1].cfg.aggregatePortID}
  {
    var w0 := AttachedInNoGroup();
    assert PduMatches(w0.ports[1], GROUPED);
    w := Strays(w0, 1, GROUPED);
    Forwards(w, 1);
  }

  // ---- one aggregate, two groups ----

  lemma HearsApart(w: World, p: PortID, pdu: LACPDU, q: PortID)
    requires p in w.ports && q in w.ports && p != q
    ensures Apart(w, Current(w, p, pdu), q)
  {
    RecordedApart(w, p, q, pdu);
    SelectApart(Recorded(w, p, pdu), p, q);
  }

  lemma PartnerHeard(w: World, p: PortID, pdu: LACPDU)
    requires Inv(w) && p in w.ports
    ensures var port := Current(w, p, pdu).ports[p];
            && SameParticipant(port.partner, pdu.actorInfo) && port.cfg == w.ports[p].cfg
            && port.partner.state.aggregatable == pdu.actorInfo.state.aggregatable
  {
    RecordedKeeps(w, p, pdu);
    SelectKeepsExcept(Recorded(w, p, pdu), p);
  }

  /** What a PDU does as far as groups go, in terms of the state before it. */
  ghost predicate HeardOf(w: World, w': World, p: PortID, pdu: LACPDU)
  {
    && Reachable(w') && Inv(w') && p in w.ports && p in w'.ports && w'.ports.Keys == w.ports.Keys
    && (forall q | q in w.ports && q != p :: Apart(w, w', q))
    && (p !in w'.sel <==> ShutOut(w, p, pdu) && (PartnerChanged(w.ports[p], pdu) || p !in w.sel))
    && SameParticipant(w'.ports[p].partner, pdu.actorInfo) && w'.ports[p].cfg == w.ports[p].cfg
    && w'.ports[p].partner.state.aggregatable == pdu.actorInfo.state.aggregatable
  }

  lemma Listens(w: World, p: PortID, pdu: LACPDU) returns (w': World)
    requires Reachable(w) && p in w.ports && w.ports[p].rx != DISABLED && w.ports[p].rx != INITIALIZED
    ensures HeardOf(w, w', p, pdu)
  {
    w' := Hears(w, p, pdu);
    assert Inv(w) && Inv(w') by { ReachableInv(w); ReachableInv(w'); }
    assert p !in w'.sel <==> ShutOut(w, p, pdu) && (PartnerChanged(w.ports[p], pdu) || p !in w.sel) by {
      LosesSelection(w, p, pdu);
    }
    PartnerHeard(w, p, pdu);
    forall q | q in w.ports && q != p ensures Apart(w, w', q) {
      HearsApart(w, p, pdu, q);
    }
  }

  /** Port 1 is in a group of partner key 9, port 2 alone in one it cannot be told from. */
  ghost predicate Primed(w: World)
  {
    && Reachable(w) && Inv(w) && w.sel.Keys == {1, 2} && Waits(w, 3, THIRD)
    && w.ports[1].cfg == FIRST && w.ports[1].partner.key == 9 && w.ports[1].partner.state.aggregatable
    && w.ports[2].cfg == SECOND && SameParticipant(w.ports[2].partner, ZERO.actorInfo)
    && !w.ports[2].partner.state.aggregatable
  }

  lemma Primes() returns (w: World)
    ensures Primed(w)
  {
    var w0 := AllUp();
    var w1 := Listens(w0, 1, OTHER);
    assert Apart(w0, w1, 2) && Apart(w0, w1, 3);
    w := Listens(w1, 2, ZERO);
    assert Apart(w1, w, 1) && Apart(w1, w, 3);
  }

  lemma PrimedSplits(w: World)
    requires Primed(w)
    ensures Enabled(w, Received(3, GROUPED)) && SplitsKey(w, Received(3, GROUPED))
  {
    var lag := LagFrom(ActorInfo(w.ports[3]), GROUPED.actorInfo);
    assert MuxInv(w.ports[1]) && MuxInv(w.ports[2]) && MuxInv(w.ports[3]);
    assert w.sel[1].lagID == TargetLag(w.ports[1]) && w.sel[2].lagID == TargetLag(w.ports[2]);
    assert w.sel[2].lagID == lag;
    assert LagHeldByOther(w, 3, lag);
    assert !Individual(w.ports[1]) && w.sel[1].lagID.actorKey == 10 && w.sel[1].lagID != lag;
    assert KeyTakenElsewhere(w, 3, 10, lag);
  }

  lemma PrimedAgrees(w: World)
    requires Primed(w)
    ensures KeysAgree(w)
  {
    assert Individual(w.ports[2]);
  }

  lemma Splits(w: World, e: Event) returns (w': World)
    requires Reachable(w) && Inv(w) && KeysAgree(w) && Enabled(w, e) && SplitsKey(w, e)
    ensures Reachable(w') && Closed(w') && !KeysAgree(w')
  {
    KeysExactly(w, e);
    w' := Step(w, e).world;
    Reach(w, e, w');
  }

  /** A run in which two aggregatable ports of one aggregate end up in different groups, because an
      individual partner that claims port 0 with priority 0 holds the second one. */
  lemma OneKeyTwoGroups() returns (w: World)
    ensures Reachable(w) && Closed(w) && !KeysAgree(w)
  {
    var w0 := Primes();
    var e := Received(3, GROUPED);
    assert Enabled(w0, e) && SplitsKey(w0, e) by { PrimedSplits(w0); }
    assert KeysAgree(w0) by { PrimedAgrees(w0); }
    w := Splits(w0, e);
  }

  /** The port has heard the individual partner and waits, SELECTED, for its timer. */
  predicate WaitsAlone(w: World, p: PortID)
  {
    && p in w.ports && p in w.sel && w.sel[p].state == SELECTED && w.ports[p].rx == CURRENT && w.ports[p].up
    && w.ports[p].mux == WAITING && w.ports[p].muxTimer && w.ports[p].matched
    && w.ports[p].partner == ALONE.actorInfo
  }

  lemma AloneWaits(w: World, p: PortID) returns (w': World)
    requires Reachable(w) && p in w.ports && p !in w.sel && w.ports[p].rx == EXPIRED && w.ports[p].mux == DETACHED
    ensures Reachable(w') && WaitsAlone(w', p) && w'.ports == w.ports[p := w'.ports[p]]
    ensures w'.ports[p].cfg == w.ports[p].cfg && w'.sel == w.sel[p := w'.sel[p]]
  {
    ReachableInv(w);
    w' := Hears(w, p, ALONE);
    CurrentAlone(w, p, ALONE);
    HearsAlone(w, p);
  }

  lemma HearsAlone(w: World, p: PortID)
    requires Inv(w) && p in w.ports && p !in w.sel && w.ports[p].rx == EXPIRED
    ensures var w' := Current(w, p, ALONE);
            p in w'.ports && w'.ports[p].partner == ALONE.actorInfo && w'.ports[p].up
    ensures var w' := Current(w, p, ALONE); p in w'.sel ==> w'.sel[p].state == SELECTED
  {
    assert w.ports[p].up by { assert PortInv(w.ports[p]); }
    LacpReceive.CurrentHears(w, p, ALONE);
    LacpSelection.CurrentSelects(w, p, ALONE, p);
  }

  /** Two ports that heard one individual partner are in one group. */
  lemma OneGroup(w: World)
    requires Reachable(w) && WaitsAlone(w, 1) && WaitsAlone(w, 2) && w.ports[1].cfg == FIRST && w.ports[2].cfg == SECOND
    ensures w.sel[1].lagID == w.sel[2].lagID
  {
    var worlds, events :| Ends(worlds, events, w);
    LacpSelection.GroupsExactly(worlds, events, |events|, 1, 2);
  }

  lemma BothWaitAlone() returns (w: World)
    ensures Reachable(w) && WaitsAlone(w, 1) && WaitsAlone(w, 2) && w.sel[1].lagID == w.sel[2].lagID
  {
    w := AllUp();
    w := AloneWaits(w, 1);
    w := AloneWaits(w, 2);
    OneGroup(w);
  }

  lemma StandsDownWaiting(w: World, w': World)
    requires Reachable(w) && WaitsAlone(w, 1) && WaitsAlone(w, 2) && w.sel[1].lagID == w.sel[2].lagID
    requires StepsTo(w, PortDown(1), w')
    ensures 2 in w'.ports && 2 in w'.sel && w'.sel[2].state == STANDBY && w'.ports[2].muxTimer && w'.ports[2].matched
  {
    ReachableInv(w);
    StandbyAfter(w, w');
    TimerAfter(w, w');
    LacpReceive.HearsExactly(w, PortDown(1), 2);
  }

  lemma StandbyAfter(w: World, w': World)
    requires Inv(w) && WaitsAlone(w, 1) && WaitsAlone(w, 2) && w.sel[1].lagID == w.sel[2].lagID
    requires StepsTo(w, PortDown(1), w')
    ensures 2 in w'.sel && w'.sel[2].state == STANDBY
  {
    LacpSelection.SelectionsExactly(w, PortDown(1), 2);
  }

  lemma TimerAfter(w: World, w': World)
    requires Inv(w) && WaitsAlone(w, 1) && WaitsAlone(w, 2) && StepsTo(w, PortDown(1), w')
    ensures 2 in w'.ports && w'.ports[2].muxTimer
  {
    LacpMux.MuxExactly(w, PortDown(1), 2);
  }

  /** A port that waits, SELECTED, stands down when another member of its group goes down; the wait
      ends all the same, and the port forwards on STANDBY. */
  lemma ForwardsOnStandby() returns (w: World)
    ensures Reachable(w) && LacpMux.Idles(w, 2) && Forwarding(w.ports[2].commands) == {w.ports[2].cfg.aggregatePortID}
  {
    var w0 := BothWaitAlone();
    assert w0.ports[1].rx != INITIALIZED;
    var w1 := TakenDown(w0, 1);
    assert StepsTo(w0, PortDown(1), w1);
    StandsDownWaiting(w0, w1);
    Reach(w0, PortDown(1), w1);
    w := WaitEnds(w1, 2);
    ReachableInv(w);
    assert PortInv(w.ports[2]);
  }
}
