/** One aggregate serves one group: aggregatable ports with the same actor key agree on it. */
module LacpKeys {
  import opened LacpTypes
  import opened LacpMachines
  import opened LacpInvariants
  import opened LacpRuns
  import opened LacpForwarding

  predicate KeysAgree(w: World)
    requires Closed(w)
  {
    forall p, q :: p in w.sel && q in w.sel && !Individual(w.ports[p]) && !Individual(w.ports[q])
                   && w.sel[p].lagID.actorKey == w.sel[q].lagID.actorKey
                   ==> w.sel[p].lagID == w.sel[q].lagID
  }

  predicate SameIdentity(p: Port, p': Port)
  {
    && p'.cfg == p.cfg
    && p'.actor.aggregatable == p.actor.aggregatable
    && SameParticipant(p'.partner, p.partner)
    && p'.partner.state.aggregatable == p.partner.state.aggregatable
  }

  // ---- nobody joins ----

  /** Nobody joins a group and those that stay keep their identity. */
  predicate Leaves(w: World, w': World)
  {
    && Closed(w) && Closed(w') && SameLags(w, w')
    && forall q :: q in w'.sel ==> SameIdentity(w.ports[q], w'.ports[q])
  }

  lemma LeavesCompose(w: World, w1: World, w2: World)
    requires Leaves(w, w1) && Leaves(w1, w2)
    ensures Leaves(w, w2)
  {
    forall q | q in w2.sel ensures SameIdentity(w.ports[q], w2.ports[q]) {
      assert SameIdentity(w.ports[q], w1.ports[q]) && SameIdentity(w1.ports[q], w2.ports[q]);
    }
  }

  lemma LeavingAgrees(w: World, w': World)
    requires Leaves(w, w') && KeysAgree(w)
    ensures KeysAgree(w')
  {
    forall q | q in w'.sel ensures Individual(w'.ports[q]) == Individual(w.ports[q]) {
      assert SameIdentity(w.ports[q], w'.ports[q]);
    }
  }

  lemma SignalsLeave(w: World, w': World)
    requires Closed(w) && OnlySignals(w, w') && SameLags(w, w')
    ensures Leaves(w, w')
  {
    SignalsKeep(w, w');
    forall q | q in w'.sel ensures SameIdentity(w.ports[q], w'.ports[q]) {
      assert Signalled(w.ports[q], w'.ports[q]);
    }
  }

  lemma SetPortLeaves(w: World, p: PortID, port: Port)
    requires Closed(w) && p in w.ports && port.cfg == w.ports[p].cfg
    requires p in w.sel ==> SameIdentity(w.ports[p], port)
    ensures Leaves(w, SetPort(w, p, port))
  {
  }

  lemma UnselectedLeaves(w: World, p: PortID)
    requires Closed(w) && p in w.ports
    ensures Leaves(w, Unselected(w, p)) && p !in Unselected(w, p).sel
    ensures Unselected(w, p).ports[p].cfg == w.ports[p].cfg
  {
    UnselectedSignals(w, p);
    assert Signalled(w.ports[p], Unselected(w, p).ports[p]);
    SignalsLeave(w, Unselected(w, p));
  }

  /** The port gives up its group and then only its own machines change. */
  lemma GivesUp(w: World, p: PortID, port: Port)
    requires Closed(w) && p in w.ports && port.cfg == w.ports[p].cfg
    ensures Leaves(w, SetPort(Unselected(w, p), p, port))
  {
    UnselectedLeaves(w, p);
    SetPortLeaves(Unselected(w, p), p, port);
    LeavesCompose(w, Unselected(w, p), SetPort(Unselected(w, p), p, port));
  }

  lemma NotMatchedSame(p: Port)
    ensures SameIdentity(p, MuxNotMatched(p)) && SameIdentity(p, MuxTimeout(p))
  {
  }

  lemma ExpiredSame(p: Port)
    ensures SameIdentity(p, RxExpired(p))
  {
    NotMatchedSame(p.(rx := EXPIRED,
                      partner := p.partner.(state := p.partner.state.(shortTimeout := true, inSync := false))));
  }

  lemma DisabledSame(p: Port)
    ensures SameIdentity(p, RxDisabled(p))
  {
    NotMatchedSame(p.(rx := DISABLED, rxTimer := false,
                      partner := p.partner.(state := p.partner.state.(inSync := false))));
  }

  lemma ResetSame(p: Port)
    ensures FreshlyStarted(p).cfg == p.cfg && DefaultAssumed(p).cfg == p.cfg
  {
    DisabledSame(DefaultAssumed(p));
  }

  lemma InitializeLeaves(w: World, p: PortID)
    requires Closed(w) && p in w.ports
    ensures Leaves(w, Initialize(w, p))
  {
    UnselectedLeaves(w, p);
    ResetSame(Unselected(w, p).ports[p]);
    GivesUp(w, p, FreshlyStarted(Unselected(w, p).ports[p]));
  }

  lemma TakenDownLeaves(w: World, p: PortID)
    requires Closed(w) && p in w.ports
    ensures Leaves(w, TakenDown(w, p))
  {
    var port := w.ports[p].(up := false);
    DisabledSame(port);
    var w1 := SetPort(w, p, RxDisabled(port));
    SetPortLeaves(w, p, RxDisabled(port));
    if p in w1.sel {
      UnselectedLeaves(w1, p);
      LeavesCompose(w, w1, Unselected(w1, p));
    }
  }

  /** An expired port has heard from a partner, so the second expiry does give up its group. */
  lemma DefaultedLeaves(w: World, p: PortID)
    requires Closed(w) && p in w.ports && w.ports[p].partner.state.shortTimeout
    ensures Leaves(w, Defaulted(w, p))
  {
    var port := w.ports[p].(rx := DEFAULTED);
    var w1 := SetPort(w, p, port);
    SetPortLeaves(w, p, port);
    UnselectedLeaves(w1, p);
    ResetSame(Unselected(w1, p).ports[p]);
    GivesUp(w1, p, DefaultAssumed(Unselected(w1, p).ports[p]));
    LeavesCompose(w, w1, Defaulted(w, p));
  }

  lemma TimeoutLeaves(w: World, p: PortID)
    requires Inv(w) && Enabled(w, ReceiveTimeout(p))
    ensures Step(w, ReceiveTimeout(p)).Running? && Leaves(w, Step(w, ReceiveTimeout(p)).world)
  {
    var port := w.ports[p];
    var fired := port.(rxTimer := false);
    assert PortInv(port);
    ExpiredSame(fired);
    if port.rx == CURRENT {
      SetPortLeaves(w, p, RxExpired(fired));
    } else {
      SetPortLeaves(w, p, fired);
      DefaultedLeaves(SetPort(w, p, fired), p);
      LeavesCompose(w, SetPort(w, p, fired), Defaulted(SetPort(w, p, fired), p));
    }
  }

  /** Only a PDU lets a port into a group. */
  lemma PortUpLeaves(w: World, p: PortID)
    requires Closed(w) && p in w.ports
    ensures Leaves(w, SetPort(w, p, RxExpired(w.ports[p].(up := true))))
  {
    var port := w.ports[p].(up := true);
    ExpiredSame(port);
    SetPortLeaves(w, p, RxExpired(port));
  }

  lemma MuxTimerLeaves(w: World, p: PortID)
    requires Closed(w) && p in w.ports
    ensures Leaves(w, SetPort(w, p, MuxTimeout(w.ports[p])))
  {
    NotMatchedSame(w.ports[p]);
    SetPortLeaves(w, p, MuxTimeout(w.ports[p]));
  }

  lemma StepLeaves(w: World, e: Event)
    requires Inv(w) && Enabled(w, e) && (e.Received? ==> w.ports[e.port].rx == DISABLED)
    ensures Step(w, e).Running? && Leaves(w, Step(w, e).world)
  {
    var p := e.port;
    var port := w.ports[p];
    assert Step(w, e).Running? && Closed(w) by { StepKeeps(w, e); }
    match e
    case Start(_) => InitializeLeaves(w, p);
    case PortUp(_) => PortUpLeaves(w, p);
    case PortDown(_) => TakenDownLeaves(w, p);
    case Received(_, _) =>
    case ReceiveTimeout(_) => TimeoutLeaves(w, p);
    case MuxTimerFired(_) => MuxTimerLeaves(w, p);
  }

  lemma RecordedLeaves(w: World, p: PortID, pdu: LACPDU)
    requires Inv(w) && p in w.ports
    ensures Leaves(w, Recorded(w, p, pdu))
  {
    var w1 := Recorded(w, p, pdu);
    assert Closed(w1) by { RecordedKeeps(w, p, pdu); }
    assert SameLags(w, w1) by { RecordedSelections(w, p, pdu); }
    forall q | q in w1.sel ensures SameIdentity(w.ports[q], w1.ports[q]) {
      RecordedIdentity(w, p, pdu, q);
    }
  }

  lemma RecordedIdentity(w: World, p: PortID, pdu: LACPDU, q: PortID)
    requires Inv(w) && p in w.ports && q in w.ports && (q == p ==> !PartnerChanged(w.ports[p], pdu))
    ensures q in Recorded(w, p, pdu).ports && SameIdentity(w.ports[q], Recorded(w, p, pdu).ports[q])
  {
    if q == p {
      RecordedKeeps(w, p, pdu);
      assert MuxInv(w.ports[p]) && MuxInv(Recorded(w, p, pdu).ports[p]);
    } else {
      RecordedApart(w, p, q, pdu);
      RecordedSignals(w, p, pdu, q);
    }
  }

  lemma RecordedSignals(w: World, p: PortID, pdu: LACPDU, q: PortID)
    requires p in w.ports && q in w.ports && q != p
    ensures Signalled(w.ports[q], Recorded(w, p, pdu).ports[q])
  {
    var w0 := SetPort(w, p, w.ports[p].(rx := CURRENT));
    UnselectedSignals(w0, p);
    StandbyKeeps(w.ports[q]);
  }

  // ---- a port joins ----

  /** Some other aggregatable port of the same key is in a different group. */
  predicate KeyTakenElsewhere(w: World, p: PortID, key: U16, lag: LagID)
    requires Closed(w)
  {
    exists q :: && q in w.sel && q != p && !Individual(w.ports[q])
                && w.sel[q].lagID.actorKey == key && w.sel[q].lagID != lag
  }

  /** The PDU puts the port in a group that somebody holds, while another aggregatable port holds
      its aggregate in a different one. Only an individual holder makes this possible. */
  predicate SplitsKey(w: World, e: Event)
    requires Closed(w) && e.port in w.ports
  {
    var p, port := e.port, w.ports[e.port];
    && e.Received? && port.rx != DISABLED && (PartnerChanged(port, e.pdu) || p !in w.sel)
    && e.pdu.actorInfo.state.aggregatable && port.cfg.aggregatable
    && var lag := LagFrom(ActorInfo(port), e.pdu.actorInfo);
       LagHeldByOther(w, p, lag) && KeyTakenElsewhere(w, p, port.cfg.aggregatePortID, lag)
  }

  lemma SelectMembership(w: World, p: PortID)
    requires p in w.ports && (p in w.sel ==> SelectionStands(w, p))
    ensures p in w.sel ==> Select(w, p) == w
    ensures p in Select(w, p).sel ==> Select(w, p).sel.Keys == w.sel.Keys + {p}
  {
  }

  lemma MemberAfter(w: World, w': World, q: PortID)
    requires SelectionsCurrent(w) && SelectionsCurrent(w') && OnlySignals(w, w') && q in w'.sel
    ensures Individual(w'.ports[q]) == Individual(w.ports[q])
    ensures w'.sel[q].lagID == TargetLag(w.ports[q])
    ensures w'.sel[q].lagID.actorKey == w.ports[q].cfg.aggregatePortID
    ensures q in w.sel ==> w.sel[q].lagID == w'.sel[q].lagID
  {
    assert Signalled(w.ports[q], w'.ports[q]);
  }

  lemma JoinAgrees(w: World, w': World, p: PortID)
    requires KeysAgreeAnd(w, w', p)
    requires Individual(w.ports[p]) || !KeyTakenElsewhere(w, p, w.ports[p].cfg.aggregatePortID, TargetLag(w.ports[p]))
    ensures KeysAgree(w')
  {
    forall q, r | q in w'.sel && r in w'.sel && !Individual(w'.ports[q]) && !Individual(w'.ports[r])
                  && w'.sel[q].lagID.actorKey == w'.sel[r].lagID.actorKey
      ensures w'.sel[q].lagID == w'.sel[r].lagID
    {
      PairAgrees(w, w', p, q, r);
    }
  }

  lemma PairAgrees(w: World, w': World, p: PortID, q: PortID, r: PortID)
    requires KeysAgreeAnd(w, w', p)
    requires Individual(w.ports[p]) || !KeyTakenElsewhere(w, p, w.ports[p].cfg.aggregatePortID, TargetLag(w.ports[p]))
    requires q in w'.sel && r in w'.sel && !Individual(w'.ports[q]) && !Individual(w'.ports[r])
    requires w'.sel[q].lagID.actorKey == w'.sel[r].lagID.actorKey
    ensures w'.sel[q].lagID == w'.sel[r].lagID
  {
    MemberAfter(w, w', q);
    MemberAfter(w, w', r);
  }

  /** Port `p` has joined: what `select` makes of a state in which keys agree. */
  ghost predicate KeysAgreeAnd(w: World, w': World, p: PortID)
  {
    && SelectionsCurrent(w) && SelectionsCurrent(w') && OnlySignals(w, w') && KeysAgree(w)
    && p in w.ports && p !in w.sel && w'.sel.Keys == w.sel.Keys + {p}
  }

  lemma JoinSplits(w: World, w': World, p: PortID)
    requires KeysAgreeAnd(w, w', p) && !Individual(w.ports[p])
    requires KeyTakenElsewhere(w, p, w.ports[p].cfg.aggregatePortID, TargetLag(w.ports[p]))
    ensures !KeysAgree(w')
  {
    var q :| q in w.sel && q != p && !Individual(w.ports[q])
             && w.sel[q].lagID.actorKey == w.ports[p].cfg.aggregatePortID && w.sel[q].lagID != TargetLag(w.ports[p]);
    MemberAfter(w, w', p);
    MemberAfter(w, w', q);
  }

  /** The selector is about to let the port into a group other than the one its key is in. */
  predicate JoinsSecondGroup(w: World, p: PortID)
    requires Closed(w) && p in w.ports
  {
    && p !in w.sel && !Individual(w.ports[p]) && LagInUse(w, TargetLag(w.ports[p]))
    && KeyTakenElsewhere(w, p, w.ports[p].cfg.aggregatePortID, TargetLag(w.ports[p]))
  }

  lemma SelectAgrees(w: World, p: PortID)
    requires InvExcept(w, p) && KeysAgree(w) && (p in w.sel ==> SelectionStands(w, p))
    ensures Closed(Select(w, p))
    ensures KeysAgree(Select(w, p)) <==>
            !JoinsSecondGroup(w, p)
  {
    var w', lag, key := Select(w, p), TargetLag(w.ports[p]), w.ports[p].cfg.aggregatePortID;
    SelectKeeps(w, p);
    SelectChoice(w, p);
    SelectMembership(w, p);
    assert KeyTakenElsewhere(w, p, key, lag) ==> KeyInUse(w, key);
    if p !in w.sel && p in w'.sel {
      assert KeysAgreeAnd(w, w', p);
      if !Individual(w.ports[p]) && KeyTakenElsewhere(w, p, key, lag) {
        JoinSplits(w, w', p);
      } else {
        JoinAgrees(w, w', p);
      }
    }
  }

  lemma TakenBefore(w: World, w1: World, p: PortID, key: U16, lag: LagID)
    requires Leaves(w, w1) && w1.sel.Keys == w.sel.Keys - {p}
    ensures KeyTakenElsewhere(w1, p, key, lag) == KeyTakenElsewhere(w, p, key, lag)
  {
    forall q | q in w1.sel ensures q in w.sel && q != p && Individual(w1.ports[q]) == Individual(w.ports[q]) {
      assert SameIdentity(w.ports[q], w1.ports[q]);
    }
    assert forall q :: q in w.sel && q != p ==> q in w1.sel;
  }

  /** What is known once a PDU is recorded and before the selector runs. */
  ghost predicate ReadyToJoin(w: World, w1: World, p: PortID, pdu: LACPDU)
  {
    && p in w.ports && Leaves(w, w1) && InvExcept(w1, p) && KeysAgree(w1)
    && w1.sel.Keys == (if PartnerChanged(w.ports[p], pdu) then w.sel.Keys - {p} else w.sel.Keys)
    && (p in w1.sel ==> SelectionStands(w1, p)) && w1.ports[p].cfg == w.ports[p].cfg
    && TargetLag(w1.ports[p]) == LagFrom(ActorInfo(w.ports[p]), pdu.actorInfo)
    && Individual(w1.ports[p]) == !(pdu.actorInfo.state.aggregatable && w.ports[p].cfg.aggregatable)
  }

  lemma RecordedReady(w: World, p: PortID, pdu: LACPDU)
    requires Inv(w) && KeysAgree(w) && p in w.ports
    ensures ReadyToJoin(w, Recorded(w, p, pdu), p, pdu)
  {
    var w1 := Recorded(w, p, pdu);
    RecordedKeeps(w, p, pdu);
    assert Leaves(w, w1) by { RecordedLeaves(w, p, pdu); }
    assert KeysAgree(w1) by { LeavingAgrees(w, w1); }
    assert w1.sel.Keys == (if PartnerChanged(w.ports[p], pdu) then w.sel.Keys - {p} else w.sel.Keys) by {
      RecordedSelections(w, p, pdu);
    }
    RecordedGroup(w.ports[p], pdu, w1.ports[p]);
  }

  lemma JoinAfter(w: World, w1: World, p: PortID, pdu: LACPDU)
    requires ReadyToJoin(w, w1, p, pdu) && Closed(w) && w.ports[p].rx != DISABLED
    ensures Closed(Select(w1, p)) && (KeysAgree(Select(w1, p)) <==> !SplitsKey(w, Received(p, pdu)))
  {
    SelectAgrees(w1, p);
    SplitsBefore(w, w1, p, pdu);
  }

  lemma SplitsBefore(w: World, w1: World, p: PortID, pdu: LACPDU)
    requires ReadyToJoin(w, w1, p, pdu) && Closed(w) && w.ports[p].rx != DISABLED
    ensures JoinsSecondGroup(w1, p) <==> SplitsKey(w, Received(p, pdu))
  {
    var lag, key := TargetLag(w1.ports[p]), w.ports[p].cfg.aggregatePortID;
    if p !in w1.sel {
      assert w1.sel.Keys == w.sel.Keys - {p};
      assert LagInUse(w1, lag) == LagHeldByOther(w, p, lag) by { HeldByOthers(w, w1, p, lag, key); }
      assert KeyTakenElsewhere(w1, p, key, lag) == KeyTakenElsewhere(w, p, key, lag) by {
        TakenBefore(w, w1, p, key, lag);
      }
    }
  }

  lemma CurrentAgrees(w: World, p: PortID, pdu: LACPDU)
    requires Inv(w) && KeysAgree(w) && Enabled(w, Received(p, pdu)) && w.ports[p].rx != DISABLED
    ensures Closed(Current(w, p, pdu))
    ensures KeysAgree(Current(w, p, pdu)) <==> !SplitsKey(w, Received(p, pdu))
  {
    var w1 := Recorded(w, p, pdu);
    assert ReadyToJoin(w, w1, p, pdu) by { RecordedReady(w, p, pdu); }
    JoinAfter(w, w1, p, pdu);
    TimerAgrees(Select(w1, p), p);
  }

  lemma TimerAgrees(w: World, p: PortID)
    requires Closed(w) && p in w.ports
    ensures var w' := SetPort(w, p, w.ports[p].(rxTimer := true)); Closed(w') && (KeysAgree(w') <==> KeysAgree(w))
  {
    var w' := SetPort(w, p, w.ports[p].(rxTimer := true));
    assert forall q :: q in w.ports ==> Individual(w'.ports[q]) == Individual(w.ports[q]);
  }

  /** An event keeps one group per key exactly unless it splits the key. */
  lemma KeysExactly(w: World, e: Event)
    requires Inv(w) && KeysAgree(w) && Enabled(w, e)
    ensures Step(w, e).Running? && Closed(Step(w, e).world)
    ensures KeysAgree(Step(w, e).world) <==> !SplitsKey(w, e)
  {
    StepKeeps(w, e);
    if e.Received? && w.ports[e.port].rx != DISABLED {
      CurrentAgrees(w, e.port, e.pdu);
    } else {
      StepLeaves(w, e);
      LeavingAgrees(w, Step(w, e).world);
    }
  }

  // ---- runs ----

  ghost predicate AgreesAt(worlds: seq<World>, i: nat)
    requires i < |worlds|
  {
    Closed(worlds[i]) && KeysAgree(worlds[i])
  }

  ghost predicate SplitsAt(worlds: seq<World>, events: seq<Event>, i: nat)
    requires i < |events| && i < |worlds|
  {
    Closed(worlds[i]) && events[i].port in worlds[i].ports && SplitsKey(worlds[i], events[i])
  }

  lemma StepsAgree(worlds: seq<World>, events: seq<Event>, i: nat)
    requires IsRun(worlds, events) && i < |events| && AgreesAt(worlds, i)
    ensures AgreesAt(worlds, i + 1) <==> !SplitsAt(worlds, events, i)
  {
    RunInv(worlds, events, i);
    assert StepsTo(worlds[i], events[i], worlds[i + 1]);
    KeysExactly(worlds[i], events[i]);
  }

  lemma {:induction false} UnsplitAgrees(worlds: seq<World>, events: seq<Event>, i: nat)
    requires IsRun(worlds, events) && i < |worlds|
    requires forall j | 0 <= j < i :: !SplitsAt(worlds, events, j)
    ensures AgreesAt(worlds, i)
  {
    if i > 0 {
      UnsplitAgrees(worlds, events, i - 1);
      StepsAgree(worlds, events, i - 1);
    } else {
      RunInv(worlds, events, 0);
    }
  }

  /** In every run, aggregatable ports whose selections name one actor key are in one group
      throughout if and only if no event splits a key. */
  lemma OneGroupExactly(worlds: seq<World>, events: seq<Event>)
    requires IsRun(worlds, events)
    ensures (forall i | 0 <= i < |worlds| :: AgreesAt(worlds, i)) <==>
            (forall j | 0 <= j < |events| :: !SplitsAt(worlds, events, j))
  {
    if forall j | 0 <= j < |events| :: !SplitsAt(worlds, events, j) {
      forall i | 0 <= i < |worlds| ensures AgreesAt(worlds, i) {
        UnsplitAgrees(worlds, events, i);
      }
    } else {
      var j :| 0 <= j < |events| && SplitsAt(worlds, events, j);
      if AgreesAt(worlds, j) {
        StepsAgree(worlds, events, j);
      }
    }
  }

  // ---- partners that can be told apart ----

  predicate SelectionsDistinguishable(w: World)
    requires Closed(w)
  {
    forall p :: p in w.sel ==> Distinguishable(w.ports[p].partner)
  }

  predicate EventDistinguishable(e: Event)
  {
    e.Received? ==> Distinguishable(e.pdu.actorInfo)
  }

  /** An aggregatable port and a distinguishable individual port are never in one group. */
  lemma GroupsApart(lag: LagID, actor: ParticipantInfo, partner: ParticipantInfo, q: Port)
    requires actor.state.aggregatable && partner.state.aggregatable && lag == LagFrom(actor, partner)
    requires Individual(q) && Distinguishable(q.partner)
    ensures lag != TargetLag(q)
  {
  }

  lemma DistinguishableNeverSplits(w: World, e: Event)
    requires Inv(w) && KeysAgree(w) && SelectionsDistinguishable(w) && Enabled(w, e)
    ensures !SplitsKey(w, e)
  {
    if SplitsKey(w, e) {
      var p, port := e.port, w.ports[e.port];
      var lag := LagFrom(ActorInfo(port), e.pdu.actorInfo);
      assert MuxInv(port);
      var r :| r in w.sel && r != p && w.sel[r].lagID == lag;
      var q :| q in w.sel && q != p && !Individual(w.ports[q])
               && w.sel[q].lagID.actorKey == port.cfg.aggregatePortID && w.sel[q].lagID != lag;
      assert w.sel[r].lagID == TargetLag(w.ports[r]);
      if Individual(w.ports[r]) {
        GroupsApart(lag, ActorInfo(port), e.pdu.actorInfo, w.ports[r]);
      }
      assert false;
    }
  }

  lemma LeavingDistinguishable(w: World, w': World)
    requires Leaves(w, w') && SelectionsDistinguishable(w)
    ensures SelectionsDistinguishable(w')
  {
    forall q | q in w'.sel ensures Distinguishable(w'.ports[q].partner) {
      assert SameIdentity(w.ports[q], w'.ports[q]);
    }
  }

  lemma SelectDistinguishable(w: World, p: PortID)
    requires InvExcept(w, p) && SelectionsDistinguishable(w) && Distinguishable(w.ports[p].partner)
    requires p in w.sel ==> SelectionStands(w, p)
    ensures var w' := Select(w, p); Closed(w') && SelectionsDistinguishable(w')
  {
    var w' := Select(w, p);
    SelectKeeps(w, p);
    SelectMembership(w, p);
    SelectChoice(w, p);
    forall q | q in w'.sel ensures Distinguishable(w'.ports[q].partner) {
      assert Signalled(w.ports[q], w'.ports[q]);
    }
  }

  lemma PartnerDistinguishable(a: ParticipantInfo, b: ParticipantInfo)
    requires SameParticipant(a, b) && a.state.aggregatable == b.state.aggregatable && Distinguishable(b)
    ensures Distinguishable(a)
  {
  }

  lemma RecordedDistinguishable(w: World, p: PortID, pdu: LACPDU)
    requires Inv(w) && SelectionsDistinguishable(w) && p in w.ports && Distinguishable(pdu.actorInfo)
    ensures var w1 := Recorded(w, p, pdu);
            && InvExcept(w1, p) && SelectionsDistinguishable(w1) && Distinguishable(w1.ports[p].partner)
            && (p in w1.sel ==> SelectionStands(w1, p))
  {
    var w1 := Recorded(w, p, pdu);
    RecordedKeeps(w, p, pdu);
    PartnerDistinguishable(w1.ports[p].partner, pdu.actorInfo);
    RecordedLeaves(w, p, pdu);
    LeavingDistinguishable(w, w1);
  }

  lemma TimerDistinguishable(w: World, p: PortID)
    requires Closed(w) && SelectionsDistinguishable(w) && p in w.ports
    ensures var w' := SetPort(w, p, w.ports[p].(rxTimer := true)); Closed(w') && SelectionsDistinguishable(w')
  {
  }

  lemma CurrentDistinguishable(w: World, p: PortID, pdu: LACPDU)
    requires Inv(w) && SelectionsDistinguishable(w) && p in w.ports && Distinguishable(pdu.actorInfo)
    ensures Closed(Current(w, p, pdu)) && SelectionsDistinguishable(Current(w, p, pdu))
  {
    RecordedDistinguishable(w, p, pdu);
    SelectDistinguishable(Recorded(w, p, pdu), p);
    TimerDistinguishable(Select(Recorded(w, p, pdu), p), p);
  }

  lemma StepDistinguishable(w: World, e: Event)
    requires Inv(w) && SelectionsDistinguishable(w) && Enabled(w, e) && EventDistinguishable(e)
    ensures Step(w, e).Running? && Closed(Step(w, e).world) && SelectionsDistinguishable(Step(w, e).world)
  {
    StepKeeps(w, e);
    if e.Received? && w.ports[e.port].rx != DISABLED {
      CurrentDistinguishable(w, e.port, e.pdu);
    } else {
      StepLeaves(w, e);
      LeavingDistinguishable(w, Step(w, e).world);
    }
  }

  lemma StepStaysDistinguishable(w: World, e: Event, w': World)
    requires Inv(w) && KeysAgree(w) && SelectionsDistinguishable(w) && EventDistinguishable(e) && StepsTo(w, e, w')
    ensures Closed(w') && KeysAgree(w') && SelectionsDistinguishable(w')
  {
    assert Closed(w') && SelectionsDistinguishable(w') by { StepDistinguishable(w, e); }
    assert !SplitsKey(w, e) by { DistinguishableNeverSplits(w, e); }
    KeysExactly(w, e);
  }

  lemma {:induction false} RunDistinguishable(worlds: seq<World>, events: seq<Event>, i: nat)
    requires IsRun(worlds, events) && i < |worlds|
    requires forall j | 0 <= j < |events| :: EventDistinguishable(events[j])
    ensures AgreesAt(worlds, i) && SelectionsDistinguishable(worlds[i])
  {
    if i > 0 {
      var k := i - 1;
      RunDistinguishable(worlds, events, k);
      assert Inv(worlds[k]) by { RunInv(worlds, events, k); }
      assert StepsTo(worlds[k], events[k], worlds[k + 1]);
      StepStaysDistinguishable(worlds[k], events[k], worlds[k + 1]);
    } else {
      InitialInv(worlds[0]);
    }
  }

  /** So there is one group per key in every run whose individual partners can be told apart from
      aggregatable ones, and in particular when all partners are aggregatable. */
  lemma OneGroupPerKey(worlds: seq<World>, events: seq<Event>, i: nat, p: PortID, q: PortID)
    requires IsRun(worlds, events) && i < |worlds|
    requires forall j | 0 <= j < |events| :: EventDistinguishable(events[j])
    requires p in worlds[i].sel && q in worlds[i].sel
    requires worlds[i].sel[p].lagID.actorKey == worlds[i].sel[q].lagID.actorKey
    ensures p in worlds[i].ports && q in worlds[i].ports
    ensures Individual(worlds[i].ports[p]) || Individual(worlds[i].ports[q])
            || worlds[i].sel[p].lagID == worlds[i].sel[q].lagID
  {
    RunDistinguishable(worlds, events, i);
  }
}
