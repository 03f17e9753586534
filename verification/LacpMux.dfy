/** The mux of every port after every event, and what follows for ports that are selected or not. */
module LacpMux {
  import opened Wrappers
  import opened LacpTypes
  import opened LacpMachines
  import opened LacpInvariants
  import opened LacpRuns
  import opened LacpForwarding
  import opened LacpMembers
  import opened LacpReceive
  import opened LacpSelection

  /** The state of a mux and whether its wait timer is set. */
  type Mux = (MuxState, bool)

  function MuxOf(p: Port): Mux
  {
    (p.mux, p.muxTimer)
  }

  /** STANDBY: an attached port detaches, any other waits with no new timer. */
  function Lowered(m: Mux): Mux
  {
    (if m.0 == ATTACHED || m.0 == COLLECTING_DISTRIBUTING then DETACHED else WAITING, m.1)
  }

  /** SELECTED: a detached port waits with its timer set, a waiting one attaches. */
  function Raised(m: Mux): Mux
  {
    if m.0 == DETACHED then (WAITING, true) else if m.0 == WAITING then (ATTACHED, m.1) else m
  }

  /** UNSELECTED: a distributing port stays attached, any other detaches. */
  function Freed(m: Mux): Mux
  {
    (if m.0 == COLLECTING_DISTRIBUTING then ATTACHED else DETACHED, m.1)
  }

  /** An attached port distributes exactly while its partner is in sync. */
  function Synced(m: Mux, inSync: bool): Mux
  {
    if m.0 == ATTACHED || m.0 == COLLECTING_DISTRIBUTING then
      (if inSync then COLLECTING_DISTRIBUTING else ATTACHED, m.1)
    else m
  }

  /** Another port is lowered when a member of its group gives the group up, and raised when its
      group is filled. */
  function OtherMux(w: World, e: Event, q: PortID): Mux
    requires e.port in w.ports && q in w.ports
  {
    var m := MuxOf(w.ports[q]);
    if q !in w.sel then m
    else
      var lag := w.sel[q].lagID;
      var down := GivesUp(w, e) && lag == w.sel[e.port].lagID && w.sel[q].state == SELECTED;
      var up := Fills(w, e) && lag == NewGroup(w, e) && (down || w.sel[q].state == STANDBY);
      var m1 := if down then Lowered(m) else m;
      if up then Raised(m1) else m1
  }

  /** After a PDU: freed if the partner is another, then in sync or not, then lowered or raised by
      the group it joins. */
  function HeardMux(w: World, e: Event): Mux
    requires e.Received? && e.port in w.ports
  {
    var port := w.ports[e.port];
    var m1 := if OtherPartner(port.partner, e.pdu.actorInfo) then Freed(MuxOf(port)) else MuxOf(port);
    var m2 := Synced(m1, InSyncWith(e.pdu, port.cfg));
    if !Chooses(w, e) then m2
    else if !e.pdu.actorInfo.state.aggregatable || !port.cfg.aggregatable then Raised(m2)
    else if Fills(w, e) then Raised(Lowered(m2))
    else if Joins(w, e) then Lowered(m2)
    else m2
  }

  function OwnMux(w: World, e: Event): Mux
    requires e.port in w.ports
  {
    var port := w.ports[e.port];
    var m := MuxOf(port);
    match e
    case Start(_) => (DETACHED, m.1)
    case PortUp(_) => Synced(m, false)
    case PortDown(_) => if e.port in w.sel then (DETACHED, m.1) else Synced(m, false)
    case Received(_, _) => if port.rx == DISABLED then m else HeardMux(w, e)
    case ReceiveTimeout(_) => if port.rx == EXPIRED then (DETACHED, m.1) else Synced(m, false)
    case MuxTimerFired(_) => (if port.matched then COLLECTING_DISTRIBUTING else ATTACHED, false)
  }

  function MuxAfter(w: World, e: Event, q: PortID): Mux
    requires e.port in w.ports && q in w.ports
  {
    if q == e.port then OwnMux(w, e) else OtherMux(w, e, q)
  }

  // ---- signals ----

  lemma SignalsMux(p: Port, aggregate: U16)
    ensures MuxOf(MuxStandby(p)) == Lowered(MuxOf(p)) && MuxOf(MuxSelected(p, aggregate)) == Raised(MuxOf(p))
    ensures MuxOf(MuxUnselected(p)) == Freed(MuxOf(p))
  {
  }

  lemma NotMatchedMux(p: Port)
    ensures MuxOf(MuxNotMatched(p)) == Synced(MuxOf(p), false)
  {
  }

  lemma ResetMux(p: Port)
    ensures MuxOf(RxExpired(p)) == MuxOf(RxDisabled(p)) == Synced(MuxOf(p), false)
  {
    NotMatchedMux(p.(rx := EXPIRED,
                     partner := p.partner.(state := p.partner.state.(shortTimeout := true, inSync := false))));
    NotMatchedMux(p.(rx := DISABLED, rxTimer := false,
                     partner := p.partner.(state := p.partner.state.(inSync := false))));
  }

  lemma HeardPort(p: Port, pdu: LACPDU)
    requires MuxInv(p)
    ensures MuxOf(Heard(p, pdu)) == Synced(MuxOf(p), InSyncWith(pdu, p.cfg))
  {
    MatchesExactly(p, pdu);
  }

  // ---- what the selector does to ports ----

  lemma UnselectedPort(w: World, p: PortID, q: PortID)
    requires p in w.ports && q in w.ports && q != p
    ensures Unselected(w, p).ports[q] ==
            if p in w.sel && q in w.sel && w.sel[q] == Selection(w.sel[p].lagID, SELECTED) then MuxStandby(w.ports[q])
            else w.ports[q]
  {
  }

  lemma PromotePort(w: World, lag: LagID, n: nat, q: PortID)
    requires q in w.ports
    ensures var r := Promote(w, lag, n).ports[q];
            if |Members(w, lag, STANDBY)| == n && q in w.sel && w.sel[q] == Selection(lag, STANDBY)
            then r == MuxSelected(w.ports[q], lag.actorKey) else r == w.ports[q]
  {
  }

  lemma SelectPort(w: World, p: PortID, q: PortID)
    requires p in w.ports && q in w.ports && q != p
    ensures var lag := TargetLag(w.ports[p]);
            Select(w, p).ports[q] ==
            if Completes(w, p) && q in w.sel && w.sel[q] == Selection(lag, STANDBY)
            then MuxSelected(w.ports[q], lag.actorKey) else w.ports[q]
  {
    var lag := TargetLag(w.ports[p]);
    var joined := ChooseStandby(w, p, lag);
    ChosenElsewhere(w, p, lag, q);
    PromotePort(joined, lag, w.ports[p].cfg.minLinkCount, q);
  }

  lemma ChosenElsewhere(w: World, p: PortID, lag: LagID, q: PortID)
    requires p in w.ports && q in w.ports && q != p
    ensures ChooseSelected(w, p, lag).ports[q] == w.ports[q] == ChooseStandby(w, p, lag).ports[q]
    ensures Held(ChooseStandby(w, p, lag), q) == Held(w, q)
  {
  }

  lemma ChosenOwn(w: World, p: PortID, lag: LagID)
    requires p in w.ports && p !in w.sel
    ensures ChooseSelected(w, p, lag).ports[p] == MuxSelected(w.ports[p], lag.actorKey)
    ensures ChooseStandby(w, p, lag).ports[p] == MuxStandby(w.ports[p])
    ensures Held(ChooseStandby(w, p, lag), p) == Some(Selection(lag, STANDBY))
  {
  }

  lemma SelectOwnMux(w: World, p: PortID)
    requires p in w.ports && p !in w.sel
    ensures var port, m := w.ports[p], MuxOf(w.ports[p]);
            MuxOf(Select(w, p).ports[p]) ==
              if Individual(port) then Raised(m)
              else if Completes(w, p) then Raised(Lowered(m))
              else if LagInUse(w, TargetLag(port)) || !KeyInUse(w, port.cfg.aggregatePortID) then Lowered(m)
              else m
  {
    var port, lag := w.ports[p], TargetLag(w.ports[p]);
    ChosenOwn(w, p, lag);
    PromotePort(ChooseStandby(w, p, lag), lag, port.cfg.minLinkCount, p);
    SignalsMux(port, lag.actorKey);
    SignalsMux(MuxStandby(port), lag.actorKey);
  }

  // ---- a PDU ----

  lemma RecordedPort(w: World, p: PortID, pdu: LACPDU, q: PortID)
    requires p in w.ports && q in w.ports && q != p
    ensures Recorded(w, p, pdu).ports[q] ==
            if OtherPartner(w.ports[p].partner, pdu.actorInfo) && p in w.sel && q in w.sel
               && w.sel[q] == Selection(w.sel[p].lagID, SELECTED)
            then MuxStandby(w.ports[q]) else w.ports[q]
  {
    ChangedExactly(w.ports[p], pdu);
    UnselectedPort(SetPort(w, p, w.ports[p].(rx := CURRENT)), p, q);
  }

  /** Lowered, then raised, as the map before and after the PDU was recorded says. */
  lemma OtherSettles(w: World, w1: World, p: PortID, pdu: LACPDU, q: PortID, r: Port)
    requires p in w.ports && q in w.ports && q != p && Prepared(w, w1, p, pdu) && q in w1.ports
    requires w1.ports[q] == if OtherPartner(w.ports[p].partner, pdu.actorInfo) && p in w.sel && q in w.sel
                               && w.sel[q] == Selection(w.sel[p].lagID, SELECTED)
                            then MuxStandby(w.ports[q]) else w.ports[q]
    requires var lag := NewGroup(w, Received(p, pdu));
             r == if Fills(w, Received(p, pdu)) && q in w1.sel && w1.sel[q] == Selection(lag, STANDBY)
                  then MuxSelected(w1.ports[q], lag.actorKey) else w1.ports[q]
    ensures MuxOf(r) == OtherMux(w, Received(p, pdu), q)
  {
    SignalsMux(w.ports[q], 0);
    SignalsMux(w1.ports[q], NewGroup(w, Received(p, pdu)).actorKey);
  }

  lemma OtherPduMux(w: World, p: PortID, pdu: LACPDU, q: PortID)
    requires Inv(w) && p in w.ports && w.ports[p].rx != DISABLED && q in w.ports && q != p
    ensures MuxOf(Current(w, p, pdu).ports[q]) == OtherMux(w, Received(p, pdu), q)
  {
    var w1 := Recorded(w, p, pdu);
    assert Prepared(w, w1, p, pdu) by { RecordedPrepares(w, p, pdu); }
    assert Targets(w, w1, p, pdu) by { RecordedTargets(w, p, pdu); }
    assert Completes(w1, p) <==> Fills(w, Received(p, pdu)) by { FillsExactly(w, w1, p, pdu); }
    RecordedPort(w, p, pdu, q);
    SelectPort(w1, p, q);
    OtherSettles(w, w1, p, pdu, q, Select(w1, p).ports[q]);
  }

  lemma RecordedOwn(w: World, p: PortID, pdu: LACPDU)
    requires Inv(w) && p in w.ports
    ensures var m := MuxOf(w.ports[p]);
            MuxOf(Recorded(w, p, pdu).ports[p]) ==
            Synced(if OtherPartner(w.ports[p].partner, pdu.actorInfo) then Freed(m) else m,
                   InSyncWith(pdu, w.ports[p].cfg))
  {
    var port := w.ports[p].(rx := CURRENT);
    var w0 := SetPort(w, p, port);
    ChangedExactly(port, pdu);
    assert MuxInv(port) by { assert MuxInv(w.ports[p]); }
    UnselectedSignals(w0, p);
    UnselectedKeeps(port);
    SignalsMux(port, 0);
    HeardPort(UpdateSelected(w0, p, pdu).ports[p], pdu);
  }

  lemma OwnSettles(w: World, w1: World, p: PortID, pdu: LACPDU, m: Mux)
    requires p in w.ports && w.ports[p].rx != DISABLED && Prepared(w, w1, p, pdu) && Targets(w, w1, p, pdu)
    requires var port := w.ports[p];
             m == Synced(if OtherPartner(port.partner, pdu.actorInfo) then Freed(MuxOf(port)) else MuxOf(port),
                         InSyncWith(pdu, port.cfg))
    ensures HeardMux(w, Received(p, pdu)) ==
            var port := w1.ports[p];
            if p in w1.sel then m
            else if Individual(port) then Raised(m)
            else if Completes(w1, p) then Raised(Lowered(m))
            else if LagInUse(w1, TargetLag(port)) || !KeyInUse(w1, port.cfg.aggregatePortID) then Lowered(m)
            else m
  {
    FillsExactly(w, w1, p, pdu);
    if p !in w1.sel {
      InUse(w, w1, p, pdu);
    }
  }

  lemma SelectStands(w: World, p: PortID)
    requires p in w.ports && (p in w.sel ==> SelectionStands(w, p))
    ensures p in w.sel ==> Select(w, p) == w
  {
  }

  lemma OwnPduMux(w: World, p: PortID, pdu: LACPDU)
    requires Inv(w) && p in w.ports && w.ports[p].rx != DISABLED
    ensures MuxOf(Current(w, p, pdu).ports[p]) == HeardMux(w, Received(p, pdu))
  {
    var w1 := Recorded(w, p, pdu);
    assert Prepared(w, w1, p, pdu) by { RecordedPrepares(w, p, pdu); }
    assert Targets(w, w1, p, pdu) by { RecordedTargets(w, p, pdu); }
    RecordedOwn(w, p, pdu);
    OwnSettles(w, w1, p, pdu, MuxOf(w1.ports[p]));
    assert MuxOf(Current(w, p, pdu).ports[p]) == MuxOf(Select(w1, p).ports[p]);
    if p in w1.sel {
      SelectStands(w1, p);
    } else {
      SelectOwnMux(w1, p);
    }
  }

  // ---- other events ----

  lemma GivenUpMux(w: World, e: Event, port: Port, q: PortID, w': World)
    requires e.port in w.ports && !e.Received? && (GivesUp(w, e) <==> e.port in w.sel)
    requires q in w.ports && q != e.port && q in w'.ports
    requires w'.ports[q] == Unselected(SetPort(w, e.port, port), e.port).ports[q]
    ensures MuxOf(w'.ports[q]) == OtherMux(w, e, q)
  {
    UnselectedPort(SetPort(w, e.port, port), e.port, q);
    SignalsMux(w.ports[q], 0);
  }

  lemma KeptMux(w: World, e: Event, q: PortID)
    requires e.port in w.ports && q in w.ports && !e.Received? && !GivesUp(w, e)
    ensures OtherMux(w, e, q) == MuxOf(w.ports[q])
  {
  }

  lemma DownOther(w: World, p: PortID, q: PortID)
    requires p in w.ports && q in w.ports && q != p
    ensures MuxOf(TakenDown(w, p).ports[q]) == OtherMux(w, PortDown(p), q)
  {
    if p in w.sel {
      GivenUpMux(w, PortDown(p), RxDisabled(w.ports[p].(up := false)), q, TakenDown(w, p));
    } else {
      KeptMux(w, PortDown(p), q);
    }
  }

  lemma StartOther(w: World, p: PortID, q: PortID)
    requires Inv(w) && Enabled(w, Start(p)) && q in w.ports && q != p
    ensures MuxOf(Initialize(w, p).ports[q]) == OtherMux(w, Start(p), q)
  {
    assert p !in w.sel;
    UnselectedPort(w, p, q);
    KeptMux(w, Start(p), q);
  }

  lemma QuietOther(w: World, e: Event, q: PortID)
    requires Inv(w) && Enabled(w, e) && !e.Received? && Step(w, e).Running? && q in w.ports && q != e.port
    ensures MuxOf(Step(w, e).world.ports[q]) == OtherMux(w, e, q)
  {
    var p := e.port;
    match e
    case Start(_) => StartOther(w, p, q);
    case PortUp(_) => KeptMux(w, e, q);
    case PortDown(_) => DownOther(w, p, q);
    case ReceiveTimeout(_) =>
      if w.ports[p].rx == EXPIRED {
        SecondOther(w, p, q);
      } else {
        KeptMux(w, e, q);
      }
    case MuxTimerFired(_) => KeptMux(w, e, q);
  }

  lemma SecondOther(w: World, p: PortID, q: PortID)
    requires Inv(w) && Enabled(w, ReceiveTimeout(p)) && w.ports[p].rx == EXPIRED && q in w.ports && q != p
    ensures Step(w, ReceiveTimeout(p)).Running?
    ensures MuxOf(Step(w, ReceiveTimeout(p)).world.ports[q]) == OtherMux(w, ReceiveTimeout(p), q)
  {
    var fired := w.ports[p].(rxTimer := false, rx := DEFAULTED);
    assert w.ports[p].partner != DEFAULT_PARTICIPANT by { HeardPartner(w, p); }
    SecondExpirySteps(w, p, fired);
    GivenUpMux(w, ReceiveTimeout(p), fired, q, Step(w, ReceiveTimeout(p)).world);
  }

  lemma NotDistributing(w: World, p: PortID)
    requires Inv(w) && p in w.ports && w.ports[p].rx != CURRENT
    ensures w.ports[p].mux != COLLECTING_DISTRIBUTING
  {
    assert PortInv(w.ports[p]);
  }

  lemma SecondOwn(w: World, p: PortID)
    requires Inv(w) && Enabled(w, ReceiveTimeout(p)) && w.ports[p].rx == EXPIRED
    ensures Step(w, ReceiveTimeout(p)).Running?
    ensures MuxOf(Step(w, ReceiveTimeout(p)).world.ports[p]) == (DETACHED, w.ports[p].muxTimer)
  {
    var fired := w.ports[p].(rxTimer := false, rx := DEFAULTED);
    assert w.ports[p].partner != DEFAULT_PARTICIPANT by { HeardPartner(w, p); }
    SecondExpirySteps(w, p, fired);
    NotDistributing(w, p);
    UnselectedOwn(SetPort(w, p, fired), p);
  }

  lemma StartOwn(w: World, p: PortID)
    requires Inv(w) && Enabled(w, Start(p))
    ensures MuxOf(Initialize(w, p).ports[p]) == (DETACHED, w.ports[p].muxTimer)
  {
    NotDistributing(w, p);
    UnselectedOwn(w, p);
    ResetMux(DefaultAssumed(Unselected(w, p).ports[p]));
  }

  lemma UnselectedOwn(w: World, p: PortID)
    requires p in w.ports
    ensures MuxOf(Unselected(w, p).ports[p]) == Freed(MuxOf(w.ports[p]))
  {
    UnselectedSignals(w, p);
    SignalsMux(w.ports[p], 0);
  }

  lemma DownOwn(w: World, p: PortID)
    requires p in w.ports
    ensures MuxOf(TakenDown(w, p).ports[p]) == OwnMux(w, PortDown(p))
  {
    var port := RxDisabled(w.ports[p].(up := false));
    ResetMux(w.ports[p].(up := false));
    var w1 := SetPort(w, p, port);
    if p in w.sel {
      assert TakenDown(w, p) == Unselected(w1, p);
      UnselectedOwn(w1, p);
    } else {
      assert TakenDown(w, p) == w1;
    }
  }

  lemma QuietOwn(w: World, e: Event)
    requires Inv(w) && Enabled(w, e) && !e.Received? && Step(w, e).Running?
    ensures MuxOf(Step(w, e).world.ports[e.port]) == OwnMux(w, e)
  {
    var p := e.port;
    match e
    case Start(_) => StartOwn(w, p);
    case PortUp(_) => ResetMux(w.ports[p].(up := true));
    case PortDown(_) => DownOwn(w, p);
    case ReceiveTimeout(_) =>
      if w.ports[p].rx == EXPIRED {
        SecondOwn(w, p);
      } else {
        ResetMux(w.ports[p].(rxTimer := false));
      }
    case MuxTimerFired(_) =>
  }

  lemma IgnoredMux(w: World, e: Event, q: PortID)
    requires Inv(w) && e.Received? && e.port in w.ports && w.ports[e.port].rx == DISABLED && q in w.ports
    ensures MuxAfter(w, e, q) == MuxOf(w.ports[q])
  {
  }

  /** Exactly what every event makes of the mux of every port and of its wait timer. */
  lemma MuxExactly(w: World, e: Event, q: PortID)
    requires Inv(w) && Enabled(w, e) && q in w.ports
    ensures Step(w, e).Running? && q in Step(w, e).world.ports
    ensures MuxOf(Step(w, e).world.ports[q]) == MuxAfter(w, e, q)
  {
    assert Step(w, e).Running? by { StepKeeps(w, e); }
    if e.Received? && w.ports[e.port].rx == DISABLED {
      IgnoredMux(w, e, q);
    } else if e.Received? {
      if q == e.port { OwnPduMux(w, q, e.pdu); } else { OtherPduMux(w, e.port, e.pdu, q); }
    } else {
      if q == e.port { QuietOwn(w, e); } else { QuietOther(w, e, q); }
    }
  }

  // ---- selected ports are on their way ----

  /** A SELECTED port is attached, or waits with its timer set. */
  predicate OnTheWay(w: World, p: PortID)
  {
    p in w.sel && w.sel[p].state == SELECTED ==>
      && p in w.ports
      && (w.ports[p].mux == ATTACHED || w.ports[p].mux == COLLECTING_DISTRIBUTING
          || (w.ports[p].mux == WAITING && w.ports[p].muxTimer))
  }

  lemma OtherOnTheWay(w: World, e: Event, q: PortID)
    requires e.port in w.ports && q in w.ports && q != e.port && OnTheWay(w, q)
    requires OtherSelection(w, e, q).Some? && OtherSelection(w, e, q).value.state == SELECTED
    ensures var m := OtherMux(w, e, q);
            m.0 == ATTACHED || m.0 == COLLECTING_DISTRIBUTING || m == (WAITING, true)
  {
  }

  lemma OwnOnTheWay(w: World, e: Event)
    requires Inv(w) && Enabled(w, e) && OnTheWay(w, e.port)
    requires OwnSelection(w, e).Some? && OwnSelection(w, e).value.state == SELECTED
    ensures var m := OwnMux(w, e);
            m.0 == ATTACHED || m.0 == COLLECTING_DISTRIBUTING || m == (WAITING, true)
  {
  }

  lemma StaysOnTheWay(w: World, e: Event, w': World, q: PortID)
    requires Inv(w) && StepsTo(w, e, w') && q in w.ports && OnTheWay(w, q)
    ensures OnTheWay(w', q)
  {
    SelectionsExactly(w, e, q);
    MuxExactly(w, e, q);
    if q in w'.sel && w'.sel[q].state == SELECTED {
      if q == e.port { OwnOnTheWay(w, e); } else { OtherOnTheWay(w, e, q); }
    }
  }

  /** In every run no SELECTED port is stuck: it is attached, or waits for a timer that is set. */
  lemma {:induction false} SelectedNotStuck(worlds: seq<World>, events: seq<Event>, i: nat, p: PortID)
    requires IsRun(worlds, events) && i < |worlds|
    ensures OnTheWay(worlds[i], p)
  {
    if i > 0 && p in worlds[i].sel {
      RunInv(worlds, events, i);
      assert StepsTo(worlds[i - 1], events[i - 1], worlds[i]);
      SamePorts(worlds[i - 1], events[i - 1], worlds[i]);
      SelectedNotStuck(worlds, events, i - 1, p);
      RunInv(worlds, events, i - 1);
      StaysOnTheWay(worlds[i - 1], events[i - 1], worlds[i], p);
    }
  }

  // ---- ports that forward on STANDBY ----

  predicate OnStandby(w: World, p: PortID)
  {
    p in w.sel && w.sel[p].state == STANDBY
  }

  /** The port collects and distributes although it is only on STANDBY. */
  predicate Idles(w: World, p: PortID)
  {
    p in w.ports && OnStandby(w, p) && w.ports[p].mux == COLLECTING_DISTRIBUTING
  }

  /** The two ways into it: a wait that was begun before ends on a matched port, and an attached port
      comes into sync with the partner it has. */
  predicate BeginsToIdle(w: World, e: Event, p: PortID)
    requires p in w.ports
  {
    var port := w.ports[p];
    && e.port == p && OnStandby(w, p)
    && if e.MuxTimerFired? then port.matched
       else
         && e.Received? && port.rx != DISABLED && !OtherPartner(port.partner, e.pdu.actorInfo)
         && port.mux == ATTACHED && InSyncWith(e.pdu, port.cfg)
  }

  /** And to stay there: a PDU that changes nothing, and events of other ports that do not fill its
      group. */
  predicate StaysIdle(w: World, e: Event, p: PortID)
    requires p in w.ports && e.port in w.ports
  {
    && Idles(w, p)
    && if e.port == p then
         e.Received? && !OtherPartner(w.ports[p].partner, e.pdu.actorInfo) && InSyncWith(e.pdu, w.ports[p].cfg)
       else !(Fills(w, e) && w.sel[p].lagID == NewGroup(w, e))
  }

  predicate ForwardsOnStandby(s: Option<Selection>, m: Mux)
  {
    s.Some? && s.value.state == STANDBY && m.0 == COLLECTING_DISTRIBUTING
  }

  lemma OtherIdles(w: World, e: Event, q: PortID)
    requires e.port in w.ports && q in w.ports && q != e.port
    ensures ForwardsOnStandby(OtherSelection(w, e, q), OtherMux(w, e, q)) <==> StaysIdle(w, e, q)
  {
  }

  lemma OwnPduIdles(w: World, e: Event)
    requires Inv(w) && Enabled(w, e) && e.Received?
    ensures ForwardsOnStandby(OwnSelection(w, e), OwnMux(w, e)) <==>
            BeginsToIdle(w, e, e.port) || StaysIdle(w, e, e.port)
  {
    if w.ports[e.port].mux == COLLECTING_DISTRIBUTING {
      OnlyCurrentForwards(w, e.port);
    }
  }

  lemma OwnQuietIdles(w: World, e: Event)
    requires Inv(w) && Enabled(w, e) && !e.Received?
    ensures ForwardsOnStandby(OwnSelection(w, e), OwnMux(w, e)) <==>
            BeginsToIdle(w, e, e.port) || StaysIdle(w, e, e.port)
  {
  }

  /** Exactly which events leave a port forwarding on STANDBY, in any state that keeps the invariant. */
  lemma IdleExactly(w: World, e: Event, p: PortID)
    requires Inv(w) && Enabled(w, e) && p in w.ports
    ensures Step(w, e).Running?
    ensures Idles(Step(w, e).world, p) <==> BeginsToIdle(w, e, p) || StaysIdle(w, e, p)
  {
    SelectionsExactly(w, e, p);
    MuxExactly(w, e, p);
    if p != e.port {
      OtherIdles(w, e, p);
    } else if e.Received? {
      OwnPduIdles(w, e);
    } else {
      OwnQuietIdles(w, e);
    }
  }

  predicate IdlesAt(worlds: seq<World>, i: nat, p: PortID)
  {
    i < |worlds| && Idles(worlds[i], p)
  }

  predicate IdleBegins(worlds: seq<World>, events: seq<Event>, j: nat, p: PortID)
  {
    && j < |events| && j < |worlds| && p in worlds[j].ports
    && !Idles(worlds[j], p) && BeginsToIdle(worlds[j], events[j], p)
  }

  lemma IdleStep(w: World, e: Event, w': World, p: PortID)
    requires Inv(w) && StepsTo(w, e, w') && p in w.ports
    ensures Idles(w', p) <==> BeginsToIdle(w, e, p) || StaysIdle(w, e, p)
  {
    IdleExactly(w, e, p);
  }

  lemma {:induction false} FirstIdle(worlds: seq<World>, events: seq<Event>, i: nat, p: PortID)
    requires IsRun(worlds, events) && IdlesAt(worlds, i, p)
    ensures exists j: nat :: IdleBegins(worlds, events, j, p)
  {
    if i > 0 {
      var k := i - 1;
      assert StepsTo(worlds[k], events[k], worlds[i]);
      SamePorts(worlds[k], events[k], worlds[i]);
      RunInv(worlds, events, k);
      IdleStep(worlds[k], events[k], worlds[i], p);
      if Idles(worlds[k], p) {
        FirstIdle(worlds, events, k, p);
      } else {
        assert IdleBegins(worlds, events, k, p);
      }
    }
  }

  /** A run has a state in which the port forwards on STANDBY if and only if one of the two events
      happens to it in a state where it does not. */
  lemma IdlesExactly(worlds: seq<World>, events: seq<Event>, p: PortID)
    requires IsRun(worlds, events)
    ensures (exists i: nat :: IdlesAt(worlds, i, p)) <==> (exists j: nat :: IdleBegins(worlds, events, j, p))
  {
    if i: nat :| IdlesAt(worlds, i, p) {
      FirstIdle(worlds, events, i, p);
    }
    if j: nat :| IdleBegins(worlds, events, j, p) {
      assert StepsTo(worlds[j], events[j], worlds[j + 1]);
      RunInv(worlds, events, j);
      IdleStep(worlds[j], events[j], worlds[j + 1], p);
      assert IdlesAt(worlds, j + 1, p);
    }
  }
}
