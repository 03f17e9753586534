/** What an event of one port does to the other members of its group. */
module LacpMembers {
  import opened LacpTypes
  import opened LacpMachines
  import opened LacpInvariants
  import opened LacpRuns
  import opened LacpForwarding

  // ---- a port that gives up its group ----

  /** The port is out of its group; whoever was SELECTED in it is on STANDBY, not attached and
      not forwarding. */
  predicate MembersStoodDown(w: World, w': World, p: PortID)
    requires Closed(w) && Closed(w') && p in w.sel
  {
    && p !in w'.sel
    && Members(w', w.sel[p].lagID, SELECTED) == {}
    && forall q :: q in Members(w, w.sel[p].lagID, SELECTED) && q != p ==>
                     && q in w'.sel && w'.sel[q] == Selection(w.sel[p].lagID, STANDBY)
                     && w'.ports[q].mux != ATTACHED && w'.ports[q].mux != COLLECTING_DISTRIBUTING
                     && Forwarding(w'.ports[q].commands) == {}
  }

  /** Whenever a port with a selection is unselected, the other members stand down. */
  lemma UnselectedStandsMembersDown(w: World, p: PortID)
    requires SelectorInv(w) && p in w.sel
    ensures Closed(Unselected(w, p)) && MembersStoodDown(w, Unselected(w, p), p)
  {
    var w' := Unselected(w, p);
    assert Closed(w') && MuxesSound(w') by { UnselectedKeepsSelector(w, p); }
    assert GroupDemoted(w, w', p) by { DeselectDemotes(w, p); }
    forall q | q in Members(w, w.sel[p].lagID, SELECTED) && q != p
      ensures w'.ports[q].mux != ATTACHED && w'.ports[q].mux != COLLECTING_DISTRIBUTING
      ensures Forwarding(w'.ports[q].commands) == {}
    {
      StoodDown(w, p, q);
      assert MuxInv(w'.ports[q]);
    }
  }

  lemma StoodDown(w: World, p: PortID, q: PortID)
    requires Closed(w) && p in w.sel && q in Members(w, w.sel[p].lagID, SELECTED) && q != p
    ensures q in Unselected(w, p).ports
    ensures Unselected(w, p).ports[q].mux == DETACHED || Unselected(w, p).ports[q].mux == WAITING
  {
    assert Unselected(w, p).ports[q] == MuxStandby(w.ports[q]);
    StandbyKeeps(w.ports[q]);
  }

  lemma StoodDownAfterSetPort(w: World, w': World, p: PortID, port: Port)
    requires Closed(w) && Closed(w') && p in w.sel && port.cfg == w.ports[p].cfg
    requires MembersStoodDown(SetPort(w, p, port), w', p)
    ensures MembersStoodDown(w, w', p)
  {
    assert Members(SetPort(w, p, port), w.sel[p].lagID, SELECTED) == Members(w, w.sel[p].lagID, SELECTED);
  }

  /** Taking a port down stands the rest of its group down, at the event boundary. */
  lemma PortDownStandsMembersDown(w: World, p: PortID)
    requires Inv(w) && Enabled(w, PortDown(p)) && p in w.sel
    ensures var w' := Step(w, PortDown(p)).world;
            Closed(w') && MembersStoodDown(w, w', p)
  {
    var port := w.ports[p].(up := false);
    DisabledKeeps(port);
    SetPortKeepsExcept(w, p, RxDisabled(port));
    var w1 := SetPort(w, p, RxDisabled(port));
    UnselectedStandsMembersDown(w1, p);
    StoodDownAfterSetPort(w, Unselected(w1, p), p, RxDisabled(port));
  }

  /** The second expiry of an epoch, step by step. */
  lemma SecondExpirySteps(w: World, p: PortID, fired: Port)
    requires p in w.ports && fired == w.ports[p].(rxTimer := false, rx := DEFAULTED)
    requires w.ports[p].rx == EXPIRED && w.ports[p].partner != DEFAULT_PARTICIPANT
    ensures var w1 := Unselected(SetPort(w, p, fired), p);
            Step(w, ReceiveTimeout(p)) == Running(SetPort(w1, p, DefaultAssumed(w1.ports[p])))
  {
    assert SetPort(SetPort(w, p, w.ports[p].(rxTimer := false)), p, fired) == SetPort(w, p, fired);
  }

  lemma HeardPartner(w: World, p: PortID)
    requires Inv(w) && p in w.ports && w.ports[p].rx == EXPIRED
    ensures w.ports[p].partner != DEFAULT_PARTICIPANT
  {
    assert PortInv(w.ports[p]);
  }

  /** A second expiry does the same. */
  lemma SecondExpiryStandsMembersDown(w: World, p: PortID)
    requires Inv(w) && Enabled(w, ReceiveTimeout(p)) && w.ports[p].rx == EXPIRED && p in w.sel
    ensures var w' := Step(w, ReceiveTimeout(p)).world;
            Closed(w') && MembersStoodDown(w, w', p)
  {
    var port := w.ports[p].(rxTimer := false, rx := DEFAULTED);
    HeardPartner(w, p);
    SecondExpirySteps(w, p, port);
    var w1 := Unselected(SetPort(w, p, port), p);
    assert Closed(w1) && MembersStoodDown(w, w1, p) by {
      SetPortKeepsExcept(w, p, port);
      UnselectedStandsMembersDown(SetPort(w, p, port), p);
      StoodDownAfterSetPort(w, w1, p, port);
    }
    StoodDownBeforeSetPort(w, w1, p, DefaultAssumed(w1.ports[p]));
  }

  lemma StoodDownBeforeSetPort(w: World, w': World, p: PortID, port: Port)
    requires Closed(w) && Closed(w') && p in w.sel && p in w'.ports && port.cfg == w'.ports[p].cfg
    requires MembersStoodDown(w, w', p)
    ensures Closed(SetPort(w', p, port)) && MembersStoodDown(w, SetPort(w', p, port), p)
  {
    assert Members(SetPort(w', p, port), w.sel[p].lagID, SELECTED) == Members(w', w.sel[p].lagID, SELECTED);
  }

  // ---- exactly when a member stands down ----

  function GroupOf(w: World, lag: LagID): set<PortID>
  {
    set q | q in w.sel && w.sel[q].lagID == lag
  }

  /** The PDU comes from another partner than the one known: another system, key or port, or one that
      is individual where the other was not. */
  predicate OtherPartner(known: ParticipantInfo, heard: ParticipantInfo)
  {
    || heard.systemID != known.systemID || heard.systemPriority != known.systemPriority || heard.key != known.key
    || heard.portPriority != known.portPriority || heard.port != known.port
    || heard.state.aggregatable != known.state.aggregatable
  }

  lemma ChangedExactly(p: Port, pdu: LACPDU)
    ensures PartnerChanged(p, pdu) <==> OtherPartner(p.partner, pdu.actorInfo)
  {
  }

  /** The event makes its port give up the group it holds. */
  predicate GivesUp(w: World, e: Event)
    requires e.port in w.ports
  {
    && e.port in w.sel
    && (e.PortDown? || (e.ReceiveTimeout? && w.ports[e.port].rx == EXPIRED)
        || (e.Received? && OtherPartner(w.ports[e.port].partner, e.pdu.actorInfo)))
  }

  /** A PDU puts the port back in the group it just gave up, as the one that makes it complete. */
  predicate Regroups(w: World, e: Event)
    requires e.port in w.ports && e.port in w.sel
  {
    var port, lag := w.ports[e.port], w.sel[e.port].lagID;
    && e.Received? && e.pdu.actorInfo.state.aggregatable && port.cfg.aggregatable
    && LagFrom(ActorInfo(port), e.pdu.actorInfo) == lag && |GroupOf(w, lag)| == port.cfg.minLinkCount
  }

  /** A member as it was, except for the state of its selection. */
  predicate StaysIn(w: World, w': World, q: PortID, state: SelectionState)
    requires q in w.sel
  {
    q in w'.sel && w'.sel[q] == w.sel[q].(state := state)
  }

  /** The port was signalled STANDBY. */
  predicate SentStandby(w: World, w': World, q: PortID)
  {
    q in w.ports && q in w'.ports && w'.ports[q] == MuxStandby(w.ports[q])
  }

  /** What `unselected` does to one other member. */
  lemma UnselectedMember(w: World, p: PortID, q: PortID)
    requires Closed(w) && p in w.ports && q in w.sel && q != p
    ensures var down := p in w.sel && w.sel[q].lagID == w.sel[p].lagID;
            && StaysIn(w, Unselected(w, p), q, if down then STANDBY else w.sel[q].state)
            && (down && w.sel[q].state == SELECTED ==> SentStandby(w, Unselected(w, p), q))
  {
    if p in w.sel {
      DeselectDemotes(w, p);
      assert w.sel[q].lagID == w.sel[p].lagID && w.sel[q].state == SELECTED ==>
               Unselected(w, p).ports[q] == MuxStandby(w.ports[q]);
    }
  }

  /** `select` completes the group of the port with those that wait in it. */
  predicate Completes(w: World, p: PortID)
    requires p in w.ports
  {
    var port, lag := w.ports[p], TargetLag(w.ports[p]);
    && !SelectionStands(w, p) && !Individual(port)
    && (LagInUse(w, lag) || !KeyInUse(w, port.cfg.aggregatePortID))
    && |Members(ChooseStandby(w, p, lag), lag, STANDBY)| == port.cfg.minLinkCount
  }

  lemma ChooseMember(w: World, p: PortID, q: PortID, lag: LagID)
    requires p in w.ports && q in w.sel && q != p
    ensures StaysIn(w, ChooseSelected(w, p, lag), q, w.sel[q].state)
    ensures StaysIn(w, ChooseStandby(w, p, lag), q, w.sel[q].state)
    ensures q in w.ports ==>
              ChooseSelected(w, p, lag).ports[q] == w.ports[q] == ChooseStandby(w, p, lag).ports[q]
  {
  }

  lemma PromoteMember(w: World, q: PortID, lag: LagID, minLinks: nat)
    requires q in w.sel
    ensures var up := |Members(w, lag, STANDBY)| == minLinks && w.sel[q].lagID == lag;
            && StaysIn(w, Promote(w, lag, minLinks), q, if up then SELECTED else w.sel[q].state)
            && (!up && q in w.ports ==> Promote(w, lag, minLinks).ports[q] == w.ports[q])
  {
    assert w.sel[q].state == SELECTED || w.sel[q].state == STANDBY;
  }

  lemma SelectMember(w: World, p: PortID, q: PortID)
    requires p in w.ports && q in w.sel && q != p
    ensures var up := Completes(w, p) && w.sel[q].lagID == TargetLag(w.ports[p]);
            && StaysIn(w, Select(w, p), q, if up then SELECTED else w.sel[q].state)
            && (!up && q in w.ports ==> Select(w, p).ports[q] == w.ports[q])
  {
    var lag := TargetLag(w.ports[p]);
    ChooseMember(w, p, q, lag);
    PromoteMember(ChooseStandby(w, p, lag), q, lag, w.ports[p].cfg.minLinkCount);
  }

  /** A port that was unselected and now targets `lag` completes it exactly when the whole group,
      the port included, has the minimum size. */
  lemma CompletesExactly(w: World, w1: World, p: PortID, q: PortID, lag: LagID)
    requires p in w.sel && p in w1.ports && lag == w.sel[p].lagID && q in w.sel && q != p && w.sel[q].lagID == lag
    requires GroupDemoted(w, w1, p) && TargetLag(w1.ports[p]) == lag
    ensures Completes(w1, p) <==> !Individual(w1.ports[p]) && |GroupOf(w, lag)| == w1.ports[p].cfg.minLinkCount
  {
    JoinSelections(w1, p, lag);
    var joined := ChooseStandby(w1, p, lag);
    assert q in w1.sel && w1.sel[q].lagID == lag;
    assert Members(joined, lag, STANDBY) == GroupOf(w, lag);
  }

  lemma RecordedDemotes(w: World, p: PortID, pdu: LACPDU, q: PortID)
    requires Closed(w) && p in w.sel && PartnerChanged(w.ports[p], pdu)
    requires q in w.sel && q != p && w.sel[q] == Selection(w.sel[p].lagID, SELECTED)
    ensures GroupDemoted(w, Recorded(w, p, pdu), p) && SentStandby(w, Recorded(w, p, pdu), q)
  {
    var w0 := SetPort(w, p, w.ports[p].(rx := CURRENT));
    DeselectDemotes(w0, p);
    UnselectedMember(w0, p, q);
  }

  /** A PDU that changes the partner of `p`: another member of its group is on STANDBY afterwards,
      or SELECTED with the rest of the group when the port completes it again. */
  lemma MovedMember(w: World, p: PortID, pdu: LACPDU, q: PortID)
    requires Inv(w) && p in w.sel && PartnerChanged(w.ports[p], pdu)
    requires q in w.sel && q != p && w.sel[q] == Selection(w.sel[p].lagID, SELECTED)
    ensures StaysIn(w, Current(w, p, pdu), q, if Regroups(w, Received(p, pdu)) then SELECTED else STANDBY)
    ensures !Regroups(w, Received(p, pdu)) ==> SentStandby(w, Current(w, p, pdu), q)
  {
    var w1, lag := Recorded(w, p, pdu), w.sel[p].lagID;
    RecordedDemotes(w, p, pdu, q);
    assert TargetLag(w1.ports[p]) == LagFrom(ActorInfo(w.ports[p]), pdu.actorInfo)
           && Individual(w1.ports[p]) == !(pdu.actorInfo.state.aggregatable && w.ports[p].cfg.aggregatable)
           && w1.ports[p].cfg == w.ports[p].cfg by {
      RecordedKeeps(w, p, pdu);
      RecordedGroup(w.ports[p], pdu, w1.ports[p]);
    }
    if TargetLag(w1.ports[p]) == lag {
      CompletesExactly(w, w1, p, q, lag);
    }
    SelectMember(w1, p, q);
  }

  /** Any other PDU leaves a SELECTED port of another group, or of the same, SELECTED. */
  lemma KeptMember(w: World, p: PortID, pdu: LACPDU, q: PortID)
    requires Inv(w) && p in w.ports && q in w.sel && q != p && w.sel[q].state == SELECTED
    requires p in w.sel && PartnerChanged(w.ports[p], pdu) ==> w.sel[q].lagID != w.sel[p].lagID
    ensures StaysIn(w, Current(w, p, pdu), q, SELECTED)
  {
    var w1 := Recorded(w, p, pdu);
    assert q in w1.sel && w1.sel[q] == w.sel[q] by {
      UnselectedMember(SetPort(w, p, w.ports[p].(rx := CURRENT)), p, q);
    }
    SelectMember(w1, p, q);
  }

  lemma DownMember(w: World, p: PortID, port: Port, q: PortID)
    requires Closed(w) && p in w.ports && port.cfg == w.ports[p].cfg
    requires q in w.sel && q != p && w.sel[q].state == SELECTED
    ensures var w', down := Unselected(SetPort(w, p, port), p), p in w.sel && w.sel[q].lagID == w.sel[p].lagID;
            StaysIn(w, w', q, if down then STANDBY else SELECTED) && (down ==> SentStandby(w, w', q))
  {
    UnselectedMember(SetPort(w, p, port), p, q);
  }

  /** The event makes another port of the group stand down. */
  predicate StandsDown(w: World, e: Event, q: PortID)
    requires e.port in w.ports && q in w.sel
  {
    GivesUp(w, e) && w.sel[q].lagID == w.sel[e.port].lagID && !Regroups(w, e)
  }

  /** What the event makes of a SELECTED port other than its own. */
  predicate Settles(w: World, e: Event, q: PortID, w': World)
    requires e.port in w.ports && q in w.sel
  {
    && StaysIn(w, w', q, if StandsDown(w, e, q) then STANDBY else SELECTED)
    && (StandsDown(w, e, q) ==> SentStandby(w, w', q))
  }

  lemma StartMember(w: World, p: PortID, q: PortID)
    requires Inv(w) && Enabled(w, Start(p)) && q in w.sel && q != p && w.sel[q].state == SELECTED
    ensures Settles(w, Start(p), q, Initialize(w, p))
  {
    UnselectedMember(w, p, q);
  }

  /** An event that unselects its port if it is in a group, and may go on to change that port. */
  lemma DownSettles(w: World, e: Event, port: Port, q: PortID, w': World)
    requires Closed(w) && e.port in w.ports && port.cfg == w.ports[e.port].cfg && !e.Received?
    requires GivesUp(w, e) <==> e.port in w.sel
    requires q in w.sel && q != e.port && w.sel[q].state == SELECTED
    requires var w1 := Unselected(SetPort(w, e.port, port), e.port);
             w'.sel == w1.sel && q in w'.ports && w'.ports[q] == w1.ports[q]
    ensures Settles(w, e, q, w')
  {
    DownMember(w, e.port, port, q);
  }

  lemma PortDownMember(w: World, p: PortID, q: PortID)
    requires Inv(w) && p in w.ports && q in w.sel && q != p && w.sel[q].state == SELECTED
    ensures Settles(w, PortDown(p), q, TakenDown(w, p))
  {
    var port := RxDisabled(w.ports[p].(up := false));
    assert port.cfg == w.ports[p].cfg by {
      assert MuxInv(w.ports[p]);
      DisabledKeeps(w.ports[p].(up := false));
    }
    if p in w.sel {
      DownSettles(w, PortDown(p), port, q, TakenDown(w, p));
    }
  }

  lemma SecondExpiryMember(w: World, p: PortID, q: PortID, fired: Port)
    requires Inv(w) && p in w.ports && w.ports[p].rx == EXPIRED
    requires fired == w.ports[p].(rxTimer := false, rx := DEFAULTED)
    requires q in w.sel && q != p && w.sel[q].state == SELECTED
    ensures var w1 := Unselected(SetPort(w, p, fired), p);
            Settles(w, ReceiveTimeout(p), q, SetPort(w1, p, DefaultAssumed(w1.ports[p])))
  {
    var w1 := Unselected(SetPort(w, p, fired), p);
    DownSettles(w, ReceiveTimeout(p), fired, q, SetPort(w1, p, DefaultAssumed(w1.ports[p])));
  }

  lemma ExpiryMember(w: World, p: PortID, q: PortID)
    requires Inv(w) && Enabled(w, ReceiveTimeout(p)) && Step(w, ReceiveTimeout(p)).Running?
    requires q in w.sel && q != p && w.sel[q].state == SELECTED
    ensures Settles(w, ReceiveTimeout(p), q, Step(w, ReceiveTimeout(p)).world)
  {
    if w.ports[p].rx == EXPIRED {
      var fired := w.ports[p].(rxTimer := false, rx := DEFAULTED);
      assert w.ports[p].partner != DEFAULT_PARTICIPANT by { HeardPartner(w, p); }
      SecondExpirySteps(w, p, fired);
      SecondExpiryMember(w, p, q, fired);
    }
  }

  lemma ReceivedMember(w: World, p: PortID, pdu: LACPDU, q: PortID)
    requires Inv(w) && p in w.ports && w.ports[p].rx != DISABLED
    requires q in w.sel && q != p && w.sel[q].state == SELECTED
    ensures Settles(w, Received(p, pdu), q, Current(w, p, pdu))
  {
    ChangedExactly(w.ports[p], pdu);
    if GivesUp(w, Received(p, pdu)) && w.sel[q].lagID == w.sel[p].lagID {
      MovedMember(w, p, pdu, q);
    } else {
      KeptMember(w, p, pdu, q);
    }
  }

  lemma IgnoredMember(w: World, p: PortID, pdu: LACPDU, q: PortID)
    requires Inv(w) && p in w.ports && w.ports[p].rx == DISABLED && q in w.sel && w.sel[q].state == SELECTED
    ensures Settles(w, Received(p, pdu), q, w)
  {
  }

  lemma MemberAfter(w: World, e: Event, q: PortID)
    requires Inv(w) && Enabled(w, e) && Step(w, e).Running?
    requires q in w.sel && q != e.port && w.sel[q].state == SELECTED
    ensures Settles(w, e, q, Step(w, e).world)
  {
    var p := e.port;
    match e
    case Start(_) => StartMember(w, p, q);
    case PortUp(_) =>
    case PortDown(_) => PortDownMember(w, p, q);
    case Received(_, pdu) =>
      if w.ports[p].rx == DISABLED {
        IgnoredMember(w, p, pdu, q);
      } else {
        ReceivedMember(w, p, pdu, q);
      }
    case ReceiveTimeout(_) => ExpiryMember(w, p, q);
    case MuxTimerFired(_) =>
  }

  /** Exactly which events take a SELECTED port out of service for the sake of another: those with
      which a member of its group gives the group up, a PDU that at once completes the same group
      again excepted. It is then on STANDBY, neither attached nor distributing, and not forwarding. */
  lemma StandsDownExactly(w: World, e: Event, q: PortID)
    requires Inv(w) && Enabled(w, e) && q in w.sel && q != e.port && w.sel[q].state == SELECTED
    ensures Step(w, e).Running?
    ensures var w' := Step(w, e).world;
            && q in w'.sel && q in w'.ports && w'.sel[q].lagID == w.sel[q].lagID
            && (w'.sel[q].state == STANDBY <==> StandsDown(w, e, q))
            && (StandsDown(w, e, q) ==>
                  && w'.ports[q].mux != ATTACHED && w'.ports[q].mux != COLLECTING_DISTRIBUTING
                  && Forwarding(w'.ports[q].commands) == {})
  {
    StepKeeps(w, e);
    MemberAfter(w, e, q);
    StandbyKeeps(w.ports[q]);
    assert MuxInv(Step(w, e).world.ports[q]);
  }
}
