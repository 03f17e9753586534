/** Ports that forward without holding a selection: exactly which events make one. */
module LacpForwarding {
  import opened LacpTypes
  import opened LacpMachines
  import opened LacpInvariants
  import opened LacpRuns

  /** The port collects and distributes but is in no group. */
  predicate Stray(w: World, p: PortID)
  {
    p in w.ports && p !in w.sel && w.ports[p].mux == COLLECTING_DISTRIBUTING
  }

  predicate KeyHeldByOther(w: World, p: PortID, key: U16)
  {
    exists q :: q in w.sel && q != p && w.sel[q].lagID.actorKey == key
  }

  predicate LagHeldByOther(w: World, p: PortID, lag: LagID)
  {
    exists q :: q in w.sel && q != p && w.sel[q].lagID == lag
  }

  /** The PDU puts the port in a group that nobody else holds, while its aggregate is held. */
  predicate ShutOut(w: World, p: PortID, pdu: LACPDU)
    requires p in w.ports
  {
    var port := w.ports[p];
    && pdu.actorInfo.state.aggregatable && port.cfg.aggregatable
    && !LagHeldByOther(w, p, LagFrom(ActorInfo(port), pdu.actorInfo))
    && KeyHeldByOther(w, p, port.cfg.aggregatePortID)
  }

  /** The three ways into forwarding without a selection: a wait that ends on a matched port that
      is in no group, a PDU that moves a forwarding port to a group it is shut out of, and a PDU
      that puts an attached port in sync which stays shut out. */
  predicate BeginsToStray(w: World, e: Event, p: PortID)
    requires p in w.ports
  {
    var port := w.ports[p];
    e.port == p &&
    if e.MuxTimerFired? then p !in w.sel && port.matched
    else
      e.Received? && port.rx != DISABLED && PduMatches(port, e.pdu) && ShutOut(w, p, e.pdu)
      && if PartnerChanged(port, e.pdu) then port.mux == COLLECTING_DISTRIBUTING
         else p !in w.sel && port.mux == ATTACHED
  }

  /** And the two ways to stay there: events of other ports, and a PDU that changes nothing. */
  predicate StaysStray(w: World, e: Event, p: PortID)
    requires p in w.ports
  {
    Stray(w, p) &&
    (|| e.port != p
     || (&& e.Received? && !PartnerChanged(w.ports[p], e.pdu)
         && PduMatches(w.ports[p], e.pdu) && ShutOut(w, p, e.pdu)))
  }

  // ---- events of other ports ----

  /** Port `p` is in a group as before, is unchanged if it is in none, and has heard nothing. */
  predicate Apart(w: World, w': World, p: PortID)
  {
    && p in w.ports && p in w'.ports && (p in w.sel <==> p in w'.sel)
    && (p !in w.sel ==> w'.ports[p] == w.ports[p]) && w'.ports[p].rx == w.ports[p].rx
    && w'.ports[p].partner == w.ports[p].partner && w'.ports[p].cfg == w.ports[p].cfg
  }

  lemma UnselectedApart(w: World, q: PortID, p: PortID)
    requires q in w.ports && p in w.ports && p != q
    ensures Apart(w, Unselected(w, q), p)
  {
  }

  lemma SelectApart(w: World, q: PortID, p: PortID)
    requires q in w.ports && p in w.ports && p != q
    ensures Apart(w, Select(w, q), p)
  {
    var lag := TargetLag(w.ports[q]);
    ChooseApart(w, q, p, lag);
    PromoteApart(ChooseStandby(w, q, lag), p, lag, w.ports[q].cfg.minLinkCount);
  }

  lemma ChooseApart(w: World, q: PortID, p: PortID, lag: LagID)
    requires q in w.ports && p in w.ports && p != q
    ensures Apart(w, ChooseSelected(w, q, lag), p) && Apart(w, ChooseStandby(w, q, lag), p)
  {
  }

  lemma PromoteApart(w: World, p: PortID, lag: LagID, minLinks: nat)
    requires p in w.ports
    ensures Apart(w, Promote(w, lag, minLinks), p)
  {
  }

  lemma RecordedApart(w: World, q: PortID, p: PortID, pdu: LACPDU)
    requires q in w.ports && p in w.ports && p != q
    ensures Apart(w, Recorded(w, q, pdu), p)
  {
    UnselectedApart(SetPort(w, q, w.ports[q].(rx := CURRENT)), q, p);
  }

  lemma OtherEvent(w: World, e: Event, p: PortID)
    requires Enabled(w, e) && p in w.ports && e.port != p && Step(w, e).Running?
    ensures Apart(w, Step(w, e).world, p)
  {
    var q := e.port;
    match e
    case Start(_) => UnselectedApart(w, q, p);
    case PortUp(_) =>
    case PortDown(_) => UnselectedApart(SetPort(w, q, RxDisabled(w.ports[q].(up := false))), q, p);
    case Received(_, pdu) =>
      RecordedApart(w, q, p, pdu);
      SelectApart(Recorded(w, q, pdu), q, p);
    case ReceiveTimeout(_) =>
      var fired := w.ports[q].(rxTimer := false);
      UnselectedApart(SetPort(SetPort(w, q, fired), q, fired.(rx := DEFAULTED)), q, p);
    case MuxTimerFired(_) =>
  }

  // ---- events of the port itself ----

  /** Apart from PDUs and the wait timer, an event leaves the port's receive machine not CURRENT. */
  lemma OwnReceive(w: World, e: Event)
    requires Enabled(w, e) && Step(w, e).Running? && !e.Received? && !e.MuxTimerFired?
    ensures e.port in Step(w, e).world.ports && Step(w, e).world.ports[e.port].rx != CURRENT
  {
    var p := e.port;
    var port := w.ports[p];
    match e
    case Start(_) => ResetReceive(Unselected(w, p).ports[p]);
    case PortUp(_) => ResetReceive(port.(up := true));
    case PortDown(_) => DownReceive(w, p);
    case ReceiveTimeout(_) =>
      ResetReceive(port.(rxTimer := false));
      DefaultedReceive(SetPort(w, p, port.(rxTimer := false)), p);
  }

  lemma ResetReceive(p: Port)
    ensures RxExpired(p).rx == EXPIRED && RxDisabled(p).rx == DISABLED && FreshlyStarted(p).rx == DISABLED
  {
  }

  lemma DownReceive(w: World, p: PortID)
    requires p in w.ports
    ensures TakenDown(w, p).ports[p].rx == DISABLED
  {
    var w1 := SetPort(w, p, RxDisabled(w.ports[p].(up := false)));
    ResetReceive(w.ports[p].(up := false));
    UnselectedReceive(w1, p);
  }

  lemma DefaultedReceive(w: World, p: PortID)
    requires p in w.ports
    ensures Defaulted(w, p).ports[p].rx == DEFAULTED
  {
    UnselectedReceive(SetPort(w, p, w.ports[p].(rx := DEFAULTED)), p);
  }

  lemma UnselectedReceive(w: World, p: PortID)
    requires p in w.ports
    ensures Unselected(w, p).ports[p].rx == w.ports[p].rx
  {
    UnselectedSignals(w, p);
    assert Signalled(w.ports[p], Unselected(w, p).ports[p]);
  }

  lemma OnlyCurrentForwards(w: World, p: PortID)
    requires Inv(w) && p in w.ports && w.ports[p].mux == COLLECTING_DISTRIBUTING
    ensures w.ports[p].rx == CURRENT && w.ports[p].matched
  {
    assert PortInv(w.ports[p]);
  }

  lemma RecordedSelections(w: World, p: PortID, pdu: LACPDU)
    requires p in w.ports
    ensures var w1 := Recorded(w, p, pdu);
            && SameLags(w, w1)
            && w1.sel.Keys == (if PartnerChanged(w.ports[p], pdu) then w.sel.Keys - {p} else w.sel.Keys)
  {
    var w0 := SetPort(w, p, w.ports[p].(rx := CURRENT));
    UnselectedSignals(w0, p);
  }

  lemma RecordedGroup(p: Port, pdu: LACPDU, r: Port)
    requires MuxInv(p) && MuxInv(r) && r.cfg == p.cfg
    requires SameParticipant(r.partner, pdu.actorInfo)
    requires r.partner.state.aggregatable == pdu.actorInfo.state.aggregatable
    ensures TargetLag(r) == LagFrom(ActorInfo(p), pdu.actorInfo)
    ensures Individual(r) == !(pdu.actorInfo.state.aggregatable && p.cfg.aggregatable)
  {
  }

  lemma HeardMux(p: Port, pdu: LACPDU)
    ensures Heard(p, pdu).mux == COLLECTING_DISTRIBUTING <==>
            PduMatches(p, pdu) && (p.mux == ATTACHED || p.mux == COLLECTING_DISTRIBUTING)
  {
  }

  /** A PDU leaves the port distributing exactly when it is in sync and the port was attached, and
      did distribute already if the PDU changed its partner. */
  lemma RecordedMux(w: World, p: PortID, pdu: LACPDU)
    requires p in w.ports
    ensures Recorded(w, p, pdu).ports[p].mux == COLLECTING_DISTRIBUTING <==>
            && PduMatches(w.ports[p], pdu)
            && (w.ports[p].mux == COLLECTING_DISTRIBUTING
                || (w.ports[p].mux == ATTACHED && !PartnerChanged(w.ports[p], pdu)))
  {
    var w0 := SetPort(w, p, w.ports[p].(rx := CURRENT));
    var port := UpdateSelected(w0, p, pdu).ports[p];
    UnselectedSignals(w0, p);
    UnselectedKeeps(w0.ports[p]);
    assert PduMatches(port, pdu) == PduMatches(w.ports[p], pdu);
    HeardMux(port, pdu);
  }

  lemma SelectChoice(w: World, p: PortID)
    requires p in w.ports && (p in w.sel ==> SelectionStands(w, p))
    ensures p in Select(w, p).sel <==>
            || p in w.sel || Individual(w.ports[p])
            || LagInUse(w, TargetLag(w.ports[p])) || !KeyInUse(w, w.ports[p].cfg.aggregatePortID)
    ensures p !in Select(w, p).sel ==> Select(w, p) == w
  {
  }

  lemma HeldByOthers(w: World, w1: World, p: PortID, lag: LagID, key: U16)
    requires SameLags(w, w1) && w1.sel.Keys == w.sel.Keys - {p}
    ensures LagInUse(w1, lag) == LagHeldByOther(w, p, lag)
    ensures KeyInUse(w1, key) == KeyHeldByOther(w, p, key)
  {
    assert forall q :: q in w1.sel <==> q in w.sel && q != p;
  }

  /** A PDU leaves the port in no group exactly when it is shut out and had no group to keep. */
  lemma LosesSelection(w: World, p: PortID, pdu: LACPDU)
    requires Inv(w) && p in w.ports
    ensures var w1 := Recorded(w, p, pdu);
            && p in w1.ports
            && (p !in Select(w1, p).sel <==> ShutOut(w, p, pdu) && (PartnerChanged(w.ports[p], pdu) || p !in w.sel))
            && (p !in Select(w1, p).sel ==> Select(w1, p) == w1)
  {
    var w1 := Recorded(w, p, pdu);
    RecordedKeeps(w, p, pdu);
    assert SameLags(w, w1)
           && w1.sel.Keys == (if PartnerChanged(w.ports[p], pdu) then w.sel.Keys - {p} else w.sel.Keys) by {
      RecordedSelections(w, p, pdu);
    }
    RecordedGroup(w.ports[p], pdu, w1.ports[p]);
    ChoiceAfter(w, w1, p, pdu);
  }

  lemma ChoiceAfter(w: World, w1: World, p: PortID, pdu: LACPDU)
    requires p in w.ports && p in w1.ports && SameLags(w, w1) && (p in w1.sel ==> SelectionStands(w1, p))
    requires w1.sel.Keys == (if PartnerChanged(w.ports[p], pdu) then w.sel.Keys - {p} else w.sel.Keys)
    requires w1.ports[p].cfg == w.ports[p].cfg
    requires TargetLag(w1.ports[p]) == LagFrom(ActorInfo(w.ports[p]), pdu.actorInfo)
    requires Individual(w1.ports[p]) == !(pdu.actorInfo.state.aggregatable && w.ports[p].cfg.aggregatable)
    ensures p !in Select(w1, p).sel <==> ShutOut(w, p, pdu) && (PartnerChanged(w.ports[p], pdu) || p !in w.sel)
    ensures p !in Select(w1, p).sel ==> Select(w1, p) == w1
  {
    SelectChoice(w1, p);
    if p !in w1.sel {
      assert w1.sel.Keys == w.sel.Keys - {p};
      HeldByOthers(w, w1, p, TargetLag(w1.ports[p]), w.ports[p].cfg.aggregatePortID);
    }
  }

  lemma CurrentStrays(w: World, p: PortID, pdu: LACPDU)
    requires Inv(w) && p in w.ports
    ensures Stray(Current(w, p, pdu), p) <==>
            && ShutOut(w, p, pdu) && (PartnerChanged(w.ports[p], pdu) || p !in w.sel)
            && Recorded(w, p, pdu).ports[p].mux == COLLECTING_DISTRIBUTING
  {
    LosesSelection(w, p, pdu);
  }

  lemma ReceivedStrays(w: World, p: PortID, pdu: LACPDU)
    requires Inv(w) && Enabled(w, Received(p, pdu))
    ensures Stray(Step(w, Received(p, pdu)).world, p) <==>
            BeginsToStray(w, Received(p, pdu), p) || StaysStray(w, Received(p, pdu), p)
  {
    if w.ports[p].rx == DISABLED {
      if Stray(w, p) {
        OnlyCurrentForwards(w, p);
      }
    } else {
      CurrentStrays(w, p, pdu);
      RecordedMux(w, p, pdu);
    }
  }

  lemma TimerStrays(w: World, p: PortID)
    requires Enabled(w, MuxTimerFired(p))
    ensures Stray(SetPort(w, p, MuxTimeout(w.ports[p])), p) <==> p !in w.sel && w.ports[p].matched
  {
  }

  lemma OwnEventStrays(w: World, e: Event)
    requires Inv(w) && Enabled(w, e) && Step(w, e).Running? && Inv(Step(w, e).world)
    ensures Stray(Step(w, e).world, e.port) <==> BeginsToStray(w, e, e.port) || StaysStray(w, e, e.port)
  {
    if e.Received? {
      ReceivedStrays(w, e.port, e.pdu);
    } else if e.MuxTimerFired? {
      TimerStrays(w, e.port);
      if Stray(w, e.port) {
        OnlyCurrentForwards(w, e.port);
      }
    } else {
      NotStrayAfter(w, e, Step(w, e).world);
    }
  }

  lemma OtherEventStrays(w: World, e: Event, p: PortID)
    requires Enabled(w, e) && p in w.ports && e.port != p && Step(w, e).Running?
    ensures Stray(Step(w, e).world, p) <==> Stray(w, p)
  {
    OtherEvent(w, e, p);
  }

  /** Exactly which events leave a port forwarding without a selection, in any state that keeps
      the invariant. */
  lemma StrayExactly(w: World, e: Event, p: PortID)
    requires Inv(w) && Enabled(w, e) && p in w.ports
    ensures Step(w, e).Running?
    ensures Stray(Step(w, e).world, p) <==> BeginsToStray(w, e, p) || StaysStray(w, e, p)
  {
    assert Step(w, e).Running? && Inv(Step(w, e).world) by { StepKeeps(w, e); }
    if e.port == p {
      OwnEventStrays(w, e);
    } else {
      OtherEventStrays(w, e, p);
    }
  }

  /** No other event of the port itself leaves it forwarding. */
  lemma NotStrayAfter(w: World, e: Event, w': World)
    requires Enabled(w, e) && Step(w, e) == Running(w') && Inv(w') && !e.Received? && !e.MuxTimerFired?
    ensures !Stray(w', e.port)
  {
    OwnReceive(w, e);
    if Stray(w', e.port) {
      OnlyCurrentForwards(w', e.port);
    }
  }

  // ---- runs ----

  lemma StrayStep(w: World, e: Event, w': World, p: PortID)
    requires Inv(w) && StepsTo(w, e, w') && p in w.ports
    ensures p in w'.ports && (Stray(w', p) <==> BeginsToStray(w, e, p) || StaysStray(w, e, p))
  {
    StrayExactly(w, e, p);
  }

  lemma {:induction false} FirstStray(worlds: seq<World>, events: seq<Event>, i: nat, p: PortID) returns (j: nat)
    requires IsRun(worlds, events) && i < |worlds| && Stray(worlds[i], p)
    ensures j < i && p in worlds[j].ports && !Stray(worlds[j], p) && BeginsToStray(worlds[j], events[j], p)
  {
    var k := i - 1;
    assert StepsTo(worlds[k], events[k], worlds[k + 1]);
    RunInv(worlds, events, k);
    SamePorts(worlds[k], events[k], worlds[k + 1]);
    StrayStep(worlds[k], events[k], worlds[k + 1], p);
    if Stray(worlds[k], p) {
      j := FirstStray(worlds, events, k, p);
    } else {
      j := k;
    }
  }

  lemma SamePorts(w: World, e: Event, w': World)
    requires StepsTo(w, e, w')
    ensures w'.ports.Keys == w.ports.Keys
  {
  }

  ghost predicate StrayAt(worlds: seq<World>, i: nat, p: PortID)
  {
    i < |worlds| && Stray(worlds[i], p)
  }

  ghost predicate BeginsAt(worlds: seq<World>, events: seq<Event>, j: nat, p: PortID)
  {
    && j < |events| && j < |worlds| && p in worlds[j].ports
    && !Stray(worlds[j], p) && BeginsToStray(worlds[j], events[j], p)
  }

  lemma BegunAt(worlds: seq<World>, events: seq<Event>, j: nat, p: PortID)
    requires IsRun(worlds, events) && BeginsAt(worlds, events, j, p)
    ensures StrayAt(worlds, j + 1, p)
  {
    assert StepsTo(worlds[j], events[j], worlds[j + 1]);
    RunInv(worlds, events, j);
    StrayStep(worlds[j], events[j], worlds[j + 1], p);
  }

  /** A run has a state in which the port forwards with no selection if and only if one of the
      three events happens to it in a state where it does not. */
  lemma StraysExactly(worlds: seq<World>, events: seq<Event>, p: PortID)
    requires IsRun(worlds, events)
    ensures (exists i: nat :: StrayAt(worlds, i, p)) <==> (exists j: nat :: BeginsAt(worlds, events, j, p))
  {
    if i: nat :| StrayAt(worlds, i, p) {
      var j := FirstStray(worlds, events, i, p);
      assert BeginsAt(worlds, events, j, p);
    }
    if j: nat :| BeginsAt(worlds, events, j, p) {
      BegunAt(worlds, events, j, p);
    }
  }

  // ---- two expiries ----

  lemma StaysUnheard(w: World, e: Event, w': World, p: PortID)
    requires StepsTo(w, e, w') && p in w.ports && w.ports[p].rx != CURRENT && !(e.Received? && e.port == p)
    ensures p in w'.ports && w'.ports[p].rx != CURRENT
  {
    if e.port != p {
      OtherEvent(w, e, p);
    } else if !e.MuxTimerFired? {
      OwnReceive(w, e);
    }
  }

  /** Only a PDU makes a receive machine CURRENT again. */
  lemma {:induction false} UnheardUntil(worlds: seq<World>, events: seq<Event>, i: nat, j: nat, p: PortID)
    requires IsRun(worlds, events) && i <= j < |worlds| && p in worlds[i].ports && worlds[i].ports[p].rx != CURRENT
    requires forall k | i <= k < j :: !(events[k].Received? && events[k].port == p)
    ensures p in worlds[j].ports && worlds[j].ports[p].rx != CURRENT
    decreases j
  {
    if i < j {
      UnheardUntil(worlds, events, i, j - 1, p);
      assert StepsTo(worlds[j - 1], events[j - 1], worlds[j]);
      StaysUnheard(worlds[j - 1], events[j - 1], worlds[j], p);
    }
  }

  /** Two expiries of a port with no PDU to it in between, whatever else happens, leave it with no
      selection, its mux DETACHED and nothing forwarding. */
  lemma TwoExpiries(worlds: seq<World>, events: seq<Event>, i: nat, j: nat, p: PortID)
    requires IsRun(worlds, events) && i < j < |events|
    requires events[i] == ReceiveTimeout(p) && events[j] == ReceiveTimeout(p)
    requires forall k | i < k < j :: !(events[k].Received? && events[k].port == p)
    ensures var w := worlds[j + 1];
            p !in w.sel && p in w.ports && w.ports[p].mux == DETACHED && Forwarding(w.ports[p].commands) == {}
  {
    assert StepsTo(worlds[i], events[i], worlds[i + 1]);
    OwnReceive(worlds[i], events[i]);
    UnheardUntil(worlds, events, i + 1, j, p);
    assert StepsTo(worlds[j], events[j], worlds[j + 1]);
    RunInv(worlds, events, j);
    assert worlds[j].ports[p].rx == EXPIRED by { assert PortInv(worlds[j].ports[p]); }
    SecondExpiry(worlds[j], p);
  }
}
