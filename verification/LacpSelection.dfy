/** The selection map all ports share: exactly what every event makes of it. */
module LacpSelection {
  import opened Wrappers
  import opened LacpTypes
  import opened LacpMachines
  import opened LacpInvariants
  import opened LacpRuns
  import opened LacpForwarding
  import opened LacpMembers

  // ---- who is in a group with whom ----

  /** The part of a port that counts in a group: none for a side that is aggregatable. */
  function Own(aggregatable: bool, number: U16): U16
  {
    if aggregatable then 0 else number
  }

  /** Two links lead from one system and aggregate to one system and key, and an individual side is
      the same port. */
  predicate SameGroupAs(a: Config, pa: ParticipantInfo, b: Config, pb: ParticipantInfo)
  {
    && a.systemID == b.systemID && a.systemPriority == b.systemPriority && a.aggregatePortID == b.aggregatePortID
    && pa.systemID == pb.systemID && pa.systemPriority == pb.systemPriority && pa.key == pb.key
    && Own(a.aggregatable, a.portID) == Own(b.aggregatable, b.portID)
    && Own(a.aggregatable, a.portPriority) == Own(b.aggregatable, b.portPriority)
    && Own(pa.state.aggregatable, pa.port) == Own(pb.state.aggregatable, pb.port)
    && Own(pa.state.aggregatable, pa.portPriority) == Own(pb.state.aggregatable, pb.portPriority)
  }

  /** In every run two ports with a selection are in one group exactly when their links are alike. */
  lemma GroupsExactly(worlds: seq<World>, events: seq<Event>, i: nat, p: PortID, q: PortID)
    requires IsRun(worlds, events) && i < |worlds| && p in worlds[i].sel && q in worlds[i].sel
    ensures p in worlds[i].ports && q in worlds[i].ports
    ensures var a, b := worlds[i].ports[p], worlds[i].ports[q];
            worlds[i].sel[p].lagID == worlds[i].sel[q].lagID <==> SameGroupAs(a.cfg, a.partner, b.cfg, b.partner)
  {
    RunInv(worlds, events, i);
    assert MuxInv(worlds[i].ports[p]) && MuxInv(worlds[i].ports[q]);
  }

  // ---- the map after an event ----

  function Held(w: World, p: PortID): Option<Selection>
  {
    if p in w.sel then Some(w.sel[p]) else None
  }

  /** A PDU makes its port choose a group: it has none, or its partner is another. */
  predicate Chooses(w: World, e: Event)
    requires e.port in w.ports
  {
    && e.Received? && w.ports[e.port].rx != DISABLED
    && (e.port !in w.sel || OtherPartner(w.ports[e.port].partner, e.pdu.actorInfo))
  }

  /** The group it would be in. */
  function NewGroup(w: World, e: Event): LagID
    requires e.Received? && e.port in w.ports
  {
    LagFrom(ActorInfo(w.ports[e.port]), e.pdu.actorInfo)
  }

  /** It chooses a group that others may be in, and is not shut out of it. */
  predicate Joins(w: World, e: Event)
    requires e.port in w.ports
  {
    && Chooses(w, e) && e.pdu.actorInfo.state.aggregatable && w.ports[e.port].cfg.aggregatable
    && !ShutOut(w, e.port, e.pdu)
  }

  /** The others that are waiting in the group, among them those it has just made to wait. */
  function WaitingFor(w: World, e: Event): set<PortID>
    requires e.Received? && e.port in w.ports
  {
    var p, lag := e.port, NewGroup(w, e);
    set q | q in w.sel && q != p && w.sel[q].lagID == lag
            && (w.sel[q].state == STANDBY || (p in w.sel && w.sel[p].lagID == lag))
  }

  /** With it there are just as many waiting as the group needs. */
  predicate Fills(w: World, e: Event)
    requires e.port in w.ports
  {
    Joins(w, e) && |WaitingFor(w, e)| + 1 == w.ports[e.port].cfg.minLinkCount
  }

  function OwnSelection(w: World, e: Event): Option<Selection>
    requires e.port in w.ports
  {
    if e.PortDown? || (e.ReceiveTimeout? && w.ports[e.port].rx == EXPIRED) then None
    else if !Chooses(w, e) then Held(w, e.port)
    else if !e.pdu.actorInfo.state.aggregatable || !w.ports[e.port].cfg.aggregatable then
      Some(Selection(NewGroup(w, e), SELECTED))
    else if Joins(w, e) then Some(Selection(NewGroup(w, e), if Fills(w, e) then SELECTED else STANDBY))
    else None
  }

  /** Other ports stay in their groups: SELECTED when theirs is filled, on STANDBY when a member gives
      it up. */
  function OtherSelection(w: World, e: Event, q: PortID): Option<Selection>
    requires e.port in w.ports
  {
    if q !in w.sel then None
    else
      var lag := w.sel[q].lagID;
      Some(Selection(lag,
        if Fills(w, e) && lag == NewGroup(w, e) then SELECTED
        else if GivesUp(w, e) && lag == w.sel[e.port].lagID then STANDBY
        else w.sel[q].state))
  }

  function SelectionAfter(w: World, e: Event, q: PortID): Option<Selection>
    requires e.port in w.ports
  {
    if q == e.port then OwnSelection(w, e) else OtherSelection(w, e, q)
  }

  // ---- a PDU ----

  /** What a PDU has done to the map before the selector runs. */
  predicate Prepared(w: World, w1: World, p: PortID, pdu: LACPDU)
    requires p in w.ports
  {
    var other := OtherPartner(w.ports[p].partner, pdu.actorInfo);
    && w1.sel.Keys == (if other then w.sel.Keys - {p} else w.sel.Keys)
    && forall q | q in w1.sel ::
         w1.sel[q] == if other && p in w.sel && w.sel[q].lagID == w.sel[p].lagID
                      then Selection(w.sel[q].lagID, STANDBY) else w.sel[q]
  }

  lemma RecordedPrepares(w: World, p: PortID, pdu: LACPDU)
    requires p in w.ports
    ensures Prepared(w, Recorded(w, p, pdu), p, pdu)
  {
    var w0 := SetPort(w, p, w.ports[p].(rx := CURRENT));
    ChangedExactly(w.ports[p], pdu);
    if PartnerChanged(w.ports[p], pdu) && p in w.sel {
      DeselectDemotes(w0, p);
    }
  }

  /** And what is known of the port itself. */
  predicate Targets(w: World, w1: World, p: PortID, pdu: LACPDU)
    requires p in w.ports
  {
    && p in w1.ports && w1.ports[p].cfg == w.ports[p].cfg
    && TargetLag(w1.ports[p]) == LagFrom(ActorInfo(w.ports[p]), pdu.actorInfo)
    && Individual(w1.ports[p]) == !(pdu.actorInfo.state.aggregatable && w.ports[p].cfg.aggregatable)
    && (p in w1.sel ==> SelectionStands(w1, p))
  }

  lemma RecordedTargets(w: World, p: PortID, pdu: LACPDU)
    requires Inv(w) && p in w.ports
    ensures Targets(w, Recorded(w, p, pdu), p, pdu)
  {
    RecordedKeeps(w, p, pdu);
    RecordedGroup(w.ports[p], pdu, Recorded(w, p, pdu).ports[p]);
  }

  lemma InUse(w: World, w1: World, p: PortID, pdu: LACPDU)
    requires p in w.ports && Prepared(w, w1, p, pdu) && Targets(w, w1, p, pdu) && p !in w1.sel
    ensures var lag, key := TargetLag(w1.ports[p]), w1.ports[p].cfg.aggregatePortID;
            && LagInUse(w1, lag) == LagHeldByOther(w, p, lag) && KeyInUse(w1, key) == KeyHeldByOther(w, p, key)
  {
    assert w1.sel.Keys == w.sel.Keys - {p};
    HeldByOthers(w, w1, p, TargetLag(w1.ports[p]), w1.ports[p].cfg.aggregatePortID);
  }

  lemma WaitingAre(w: World, w1: World, p: PortID, pdu: LACPDU)
    requires p in w.ports && Prepared(w, w1, p, pdu) && Targets(w, w1, p, pdu) && p !in w1.sel
    ensures var lag := TargetLag(w1.ports[p]);
            |Members(ChooseStandby(w1, p, lag), lag, STANDBY)| == |WaitingFor(w, Received(p, pdu))| + 1
  {
    var lag := TargetLag(w1.ports[p]);
    JoinSelections(w1, p, lag);
    WaitingOthers(w, w1, p, pdu, lag);
    assert Members(ChooseStandby(w1, p, lag), lag, STANDBY) == Members(w1, lag, STANDBY) + {p};
  }

  lemma WaitingOthers(w: World, w1: World, p: PortID, pdu: LACPDU, lag: LagID)
    requires p in w.ports && Prepared(w, w1, p, pdu) && p !in w1.sel && lag == NewGroup(w, Received(p, pdu))
    ensures Members(w1, lag, STANDBY) == WaitingFor(w, Received(p, pdu))
  {
    assert p in w.sel ==> OtherPartner(w.ports[p].partner, pdu.actorInfo);
    forall q ensures q in Members(w1, lag, STANDBY) <==> q in WaitingFor(w, Received(p, pdu)) {
      assert q in w1.sel <==> q in w.sel && q != p;
    }
  }

  /** The selector completes a group exactly when the port fills it. */
  lemma FillsExactly(w: World, w1: World, p: PortID, pdu: LACPDU)
    requires p in w.ports && w.ports[p].rx != DISABLED && Prepared(w, w1, p, pdu) && Targets(w, w1, p, pdu)
    ensures Completes(w1, p) <==> Fills(w, Received(p, pdu))
    ensures p !in w1.sel <==> Chooses(w, Received(p, pdu))
  {
    if p !in w1.sel {
      InUse(w, w1, p, pdu);
      WaitingAre(w, w1, p, pdu);
    }
  }

  lemma OtherChoice(w: World, w1: World, p: PortID, pdu: LACPDU, q: PortID)
    requires p in w.ports && w.ports[p].rx != DISABLED && Prepared(w, w1, p, pdu) && Targets(w, w1, p, pdu) && q != p
    ensures Held(Select(w1, p), q) == OtherSelection(w, Received(p, pdu), q)
  {
    FillsExactly(w, w1, p, pdu);
    if q in w1.sel {
      SelectMember(w1, p, q);
    } else {
      SelectAdds(w1, p, q);
    }
  }

  lemma SelectAdds(w: World, p: PortID, q: PortID)
    requires p in w.ports && q !in w.sel && q != p
    ensures q !in Select(w, p).sel
  {
  }

  lemma OwnChoice(w: World, w1: World, p: PortID, pdu: LACPDU)
    requires p in w.ports && w.ports[p].rx != DISABLED && Prepared(w, w1, p, pdu) && Targets(w, w1, p, pdu)
    ensures Held(Select(w1, p), p) == OwnSelection(w, Received(p, pdu))
  {
    FillsExactly(w, w1, p, pdu);
    if p !in w1.sel {
      InUse(w, w1, p, pdu);
      SelectOwn(w1, p);
    }
  }

  /** What the selector gives a port that is in no group. */
  lemma SelectOwn(w: World, p: PortID)
    requires p in w.ports && p !in w.sel
    ensures var port, lag := w.ports[p], TargetLag(w.ports[p]);
            Held(Select(w, p), p) ==
              if Individual(port) then Some(Selection(lag, SELECTED))
              else if LagInUse(w, lag) || !KeyInUse(w, port.cfg.aggregatePortID) then
                Some(Selection(lag, if Completes(w, p) then SELECTED else STANDBY))
              else None
  {
    var lag := TargetLag(w.ports[p]);
    JoinSelections(w, p, lag);
    PromoteMember(ChooseStandby(w, p, lag), p, lag, w.ports[p].cfg.minLinkCount);
  }

  lemma CurrentSelects(w: World, p: PortID, pdu: LACPDU, q: PortID)
    requires Inv(w) && p in w.ports && w.ports[p].rx != DISABLED
    ensures Held(Current(w, p, pdu), q) == SelectionAfter(w, Received(p, pdu), q)
  {
    RecordedPrepares(w, p, pdu);
    RecordedTargets(w, p, pdu);
    if q == p {
      OwnChoice(w, Recorded(w, p, pdu), p, pdu);
    } else {
      OtherChoice(w, Recorded(w, p, pdu), p, pdu, q);
    }
  }

  // ---- every event ----

  /** The map after a port was unselected. */
  function Without(w: World, p: PortID, q: PortID): Option<Selection>
  {
    if q == p || q !in w.sel then None
    else if p in w.sel && w.sel[q].lagID == w.sel[p].lagID then Some(Selection(w.sel[q].lagID, STANDBY))
    else Some(w.sel[q])
  }

  lemma UnselectedHeld(w: World, p: PortID, q: PortID)
    requires Closed(w) && p in w.ports
    ensures Held(Unselected(w, p), q) == Without(w, p, q)
  {
    if q in w.sel && q != p {
      UnselectedMember(w, p, q);
    }
  }

  lemma SetUnselectedHeld(w: World, p: PortID, port: Port, q: PortID)
    requires Closed(w) && p in w.ports && port.cfg == w.ports[p].cfg
    ensures Held(Unselected(SetPort(w, p, port), p), q) == Without(w, p, q)
  {
    UnselectedHeld(SetPort(w, p, port), p, q);
  }

  lemma UnheardSelects(w: World, e: Event, q: PortID)
    requires e.port in w.ports && !e.Received?
    ensures SelectionAfter(w, e, q) ==
            if e.PortDown? || (e.ReceiveTimeout? && w.ports[e.port].rx == EXPIRED) then Without(w, e.port, q)
            else Held(w, q)
  {
  }

  lemma DownSelects(w: World, p: PortID, q: PortID)
    requires Inv(w) && p in w.ports
    ensures Held(TakenDown(w, p), q) == Without(w, p, q)
  {
    var port := RxDisabled(w.ports[p].(up := false));
    assert port.cfg == w.ports[p].cfg by {
      assert MuxInv(w.ports[p]);
      DisabledKeeps(w.ports[p].(up := false));
    }
    SetUnselectedHeld(w, p, port, q);
  }

  lemma SecondSelects(w: World, p: PortID, q: PortID)
    requires Inv(w) && p in w.ports && w.ports[p].rx == EXPIRED
    ensures Step(w, ReceiveTimeout(p)).Running? && Held(Step(w, ReceiveTimeout(p)).world, q) == Without(w, p, q)
  {
    var fired := w.ports[p].(rxTimer := false, rx := DEFAULTED);
    assert w.ports[p].partner != DEFAULT_PARTICIPANT by { HeardPartner(w, p); }
    SecondExpirySteps(w, p, fired);
    SetUnselectedHeld(w, p, fired, q);
  }

  lemma StartSelects(w: World, p: PortID, q: PortID)
    requires Inv(w) && Enabled(w, Start(p))
    ensures Held(Initialize(w, p), q) == Held(w, q)
  {
    assert p !in w.sel;
    UnselectedHeld(w, p, q);
  }

  /** Exactly what every event makes of the whole selection map: which group its own port is in
      afterwards and whether SELECTED, and which other ports it promotes or stands down. */
  lemma SelectionsExactly(w: World, e: Event, q: PortID)
    requires Inv(w) && Enabled(w, e)
    ensures Step(w, e).Running? && Held(Step(w, e).world, q) == SelectionAfter(w, e, q)
  {
    assert Step(w, e).Running? by { StepKeeps(w, e); }
    var p := e.port;
    if e.Received? {
      if w.ports[p].rx == DISABLED {
        IgnoredSelects(w, e, q);
      } else {
        CurrentSelects(w, p, e.pdu, q);
      }
    } else {
      UnheardSelects(w, e, q);
      QuietSelects(w, e, q);
    }
  }

  lemma IgnoredSelects(w: World, e: Event, q: PortID)
    requires Inv(w) && e.Received? && e.port in w.ports && w.ports[e.port].rx == DISABLED
    ensures SelectionAfter(w, e, q) == Held(w, q)
  {
  }

  lemma QuietSelects(w: World, e: Event, q: PortID)
    requires Inv(w) && Enabled(w, e) && !e.Received? && Step(w, e).Running?
    ensures Held(Step(w, e).world, q) ==
            if e.PortDown? || (e.ReceiveTimeout? && w.ports[e.port].rx == EXPIRED) then Without(w, e.port, q)
            else Held(w, q)
  {
    var p := e.port;
    match e
    case Start(_) => StartSelects(w, p, q);
    case PortUp(_) =>
    case PortDown(_) => DownSelects(w, p, q);
    case ReceiveTimeout(_) => if w.ports[p].rx == EXPIRED { SecondSelects(w, p, q); }
    case MuxTimerFired(_) =>
  }
}
