/** What a port hears and remembers: the receive side of every port after every event. */
module LacpReceive {
  import opened LacpTypes
  import opened LacpMachines
  import opened LacpInvariants
  import opened LacpRuns
  import opened LacpForwarding

  /** The partner information of the PDU is about this very port. */
  predicate Names(pdu: LACPDU, cfg: Config)
  {
    && pdu.partnerInfo.systemPriority == cfg.systemPriority
    && pdu.partnerInfo.systemID == cfg.systemID
    && pdu.partnerInfo.key == cfg.aggregatePortID
    && pdu.partnerInfo.portPriority == cfg.portPriority
    && pdu.partnerInfo.port == cfg.portID
  }

  /** The partner is in sync with the port: it says so, and knows it or is individual. */
  predicate InSyncWith(pdu: LACPDU, cfg: Config)
  {
    pdu.actorInfo.state.inSync && (!pdu.actorInfo.state.aggregatable || Names(pdu, cfg))
  }

  function WithoutSync(info: ParticipantInfo): ParticipantInfo
  {
    info.(state := info.state.(inSync := false))
  }

  /** Nothing is known of the partner. */
  predicate Nobody(info: ParticipantInfo)
  {
    && info.systemPriority == info.key == info.portPriority == info.port == 0 && info.systemID == [0, 0, 0, 0, 0, 0]
    && info.state == LacpState(false, false, false, false, false, false, false, false)
  }

  predicate SameEpoch(p: Port, p': Port)
  {
    && p'.rx == p.rx && p'.rxTimer == p.rxTimer && p'.partner == p.partner && p'.matched == p.matched
    && p'.actor.expired == p.actor.expired && p'.actor.defaulted == p.actor.defaulted
  }

  /** A new epoch begins in which the partner must be heard. */
  predicate Expires(p: Port, p': Port)
  {
    && p'.rx == EXPIRED && p'.rxTimer && !p'.matched && p'.actor.expired && p'.actor.defaulted == p.actor.defaulted
    && p'.partner == p.partner.(state := p.partner.state.(inSync := false, shortTimeout := true))
  }

  /** The receive side of a port after an event of its own. */
  predicate Hears(p: Port, e: Event, p': Port)
  {
    match e
    case Start(_) =>
      p'.rx == DISABLED && !p'.rxTimer && !p'.matched && Nobody(p'.partner) && p'.actor.defaulted && !p'.actor.expired
    case PortUp(_) => Expires(p, p')
    case PortDown(_) =>
      && p'.rx == DISABLED && !p'.rxTimer && !p'.matched && p'.partner == WithoutSync(p.partner)
      && p'.actor.expired == p.actor.expired && p'.actor.defaulted == p.actor.defaulted
    case Received(_, pdu) =>
      if p.rx == DISABLED then SameEpoch(p, p')
      else
        && p'.rx == CURRENT && p'.rxTimer && !p'.actor.expired && !p'.actor.defaulted
        && (p'.matched <==> InSyncWith(pdu, p.cfg))
        && p'.partner == pdu.actorInfo.(state := pdu.actorInfo.state.(inSync := p'.matched))
    case ReceiveTimeout(_) =>
      if p.rx == CURRENT then Expires(p, p')
      else
        && p'.rx == DEFAULTED && !p'.rxTimer && !p'.matched && Nobody(p'.partner)
        && p'.actor.defaulted && !p'.actor.expired
    case MuxTimerFired(_) => SameEpoch(p, p')
  }

  predicate SameModes(a: LacpState, b: LacpState)
  {
    b.active == a.active && b.shortTimeout == a.shortTimeout && b.aggregatable == a.aggregatable
  }

  /** What no event changes, apart from whether the port is up. */
  predicate SameConfig(p: Port, e: Event, p': Port)
  {
    && p'.cfg == p.cfg && SameModes(p.actor, p'.actor)
    && p'.up == if e == PortUp(p.cfg.portID) then true else if e == PortDown(p.cfg.portID) then false else p.up
  }

  // ---- events of the port itself ----

  lemma ExpiredHears(p: Port)
    ensures Expires(p, RxExpired(p)) && RxExpired(p).cfg == p.cfg && RxExpired(p).up == p.up
    ensures SameModes(p.actor, RxExpired(p).actor)
  {
    NotMatchedKeeps(p.(rx := EXPIRED,
                       partner := p.partner.(state := p.partner.state.(shortTimeout := true, inSync := false))));
  }

  lemma DisabledHears(p: Port)
    ensures var q := RxDisabled(p);
            && q.rx == DISABLED && !q.rxTimer && !q.matched && q.partner == WithoutSync(p.partner)
            && q.cfg == p.cfg && q.up == p.up && SameFlags(p.actor, q.actor)
  {
    NotMatchedKeeps(p.(rx := DISABLED, rxTimer := false, partner := WithoutSync(p.partner)));
  }

  lemma UnselectedSame(w: World, p: PortID)
    requires p in w.ports
    ensures SameReceive(w.ports[p], Unselected(w, p).ports[p])
  {
    UnselectedSignals(w, p);
    assert Signalled(w.ports[p], Unselected(w, p).ports[p]);
  }

  lemma StartHears(w: World, p: PortID)
    requires Inv(w) && Enabled(w, Start(p))
    ensures var r := Initialize(w, p).ports[p];
            Hears(w.ports[p], Start(p), r) && SameConfig(w.ports[p], Start(p), r)
  {
    UnselectedSame(w, p);
    DisabledHears(DefaultAssumed(Unselected(w, p).ports[p]));
  }

  lemma DownHears(w: World, p: PortID)
    requires Inv(w) && Enabled(w, PortDown(p))
    ensures var r := TakenDown(w, p).ports[p];
            Hears(w.ports[p], PortDown(p), r) && SameConfig(w.ports[p], PortDown(p), r)
  {
    var w1 := SetPort(w, p, RxDisabled(w.ports[p].(up := false)));
    DisabledHears(w.ports[p].(up := false));
    UnselectedSame(w1, p);
  }

  lemma DefaultedHears(w: World, p: PortID)
    requires p in w.ports && w.ports[p].partner != DEFAULT_PARTICIPANT && !w.ports[p].matched && !w.ports[p].rxTimer
    ensures var p', r := w.ports[p], Defaulted(w, p).ports[p];
            && r.rx == DEFAULTED && !r.rxTimer && !r.matched && Nobody(r.partner) && r.cfg == p'.cfg && r.up == p'.up
            && r.actor.defaulted && !r.actor.expired && SameModes(p'.actor, r.actor)
  {
    UnselectedSame(SetPort(w, p, w.ports[p].(rx := DEFAULTED)), p);
  }

  lemma TimeoutHears(w: World, p: PortID)
    requires Inv(w) && Enabled(w, ReceiveTimeout(p))
    ensures Step(w, ReceiveTimeout(p)).Running?
    ensures var r := Step(w, ReceiveTimeout(p)).world.ports[p];
            Hears(w.ports[p], ReceiveTimeout(p), r) && SameConfig(w.ports[p], ReceiveTimeout(p), r)
  {
    var fired := w.ports[p].(rxTimer := false);
    assert PortInv(w.ports[p]);
    if w.ports[p].rx == CURRENT {
      ExpiredHears(fired);
    } else {
      DefaultedHears(SetPort(w, p, fired), p);
    }
  }

  lemma MatchesExactly(p: Port, pdu: LACPDU)
    ensures PduMatches(p, pdu) <==> InSyncWith(pdu, p.cfg)
  {
  }

  lemma HeardHears(p: Port, pdu: LACPDU)
    ensures var r := Heard(p, pdu);
            && r.rx == p.rx && r.cfg == p.cfg && r.up == p.up && !r.actor.expired && !r.actor.defaulted
            && (r.matched <==> InSyncWith(pdu, p.cfg))
            && r.partner == pdu.actorInfo.(state := pdu.actorInfo.state.(inSync := r.matched))
            && SameModes(p.actor, r.actor)
  {
    var matches := PduMatches(p, pdu);
    MatchesExactly(p, pdu);
    var q := p.(partner := pdu.actorInfo.(state := pdu.actorInfo.state.(inSync := matches)),
                actor := p.actor.(defaulted := false));
    if matches {
      assert SameReceive(q.(matched := true), MuxMatched(q)) by { MatchedKeeps(q); }
    } else {
      assert SameReceive(q.(matched := false), MuxNotMatched(q)) by { NotMatchedKeeps(q); }
    }
  }

  lemma CurrentHears(w: World, p: PortID, pdu: LACPDU)
    requires Inv(w) && p in w.ports && w.ports[p].rx != DISABLED
    ensures var r := Current(w, p, pdu).ports[p];
            Hears(w.ports[p], Received(p, pdu), r) && SameConfig(w.ports[p], Received(p, pdu), r)
  {
    var w0 := SetPort(w, p, w.ports[p].(rx := CURRENT));
    var port, w1 := UpdateSelected(w0, p, pdu).ports[p], Recorded(w, p, pdu);
    assert SameReceive(w0.ports[p], port) by { UnselectedSame(w0, p); }
    assert SameReceive(w1.ports[p], Select(w1, p).ports[p]) by {
      RecordedKeeps(w, p, pdu);
      SelectKeepsExcept(w1, p);
    }
    HeardAll(w.ports[p], port, pdu, Select(w1, p).ports[p]);
  }

  /** Hearing a PDU, between a port that may have been unselected and what selecting makes of it. */
  lemma HeardAll(p: Port, port: Port, pdu: LACPDU, r: Port)
    requires p.rx != DISABLED && SameReceive(p.(rx := CURRENT), port) && SameReceive(Heard(port, pdu), r)
    ensures Hears(p, Received(p.cfg.portID, pdu), r.(rxTimer := true))
    ensures SameConfig(p, Received(p.cfg.portID, pdu), r.(rxTimer := true))
  {
    HeardHears(port, pdu);
  }

  lemma OwnHears(w: World, e: Event)
    requires Inv(w) && Enabled(w, e) && Step(w, e).Running? && e.port in Step(w, e).world.ports
    ensures var r := Step(w, e).world.ports[e.port];
            Hears(w.ports[e.port], e, r) && SameConfig(w.ports[e.port], e, r)
  {
    var p := e.port;
    match e
    case Start(_) => StartHears(w, p);
    case PortUp(_) => ExpiredHears(w.ports[p].(up := true));
    case PortDown(_) => DownHears(w, p);
    case Received(_, pdu) => if w.ports[p].rx != DISABLED { CurrentHears(w, p, pdu); }
    case ReceiveTimeout(_) => TimeoutHears(w, p);
    case MuxTimerFired(_) =>
  }

  // ---- events of other ports ----

  lemma SetPortElsewhere(w: World, p: PortID, port: Port, q: PortID)
    requires q in w.ports && q != p
    ensures q in SetPort(w, p, port).ports && SetPort(w, p, port).ports[q] == w.ports[q]
  {
  }

  lemma SelectSame(w: World, p: PortID, q: PortID)
    requires InvExcept(w, p) && q in w.ports
    ensures SameReceive(w.ports[q], Select(w, p).ports[q])
  {
    SelectKeeps(w, p);
    assert Signalled(w.ports[q], Select(w, p).ports[q]);
  }

  lemma UnselectedOther(w: World, p: PortID, q: PortID)
    requires p in w.ports && q in w.ports
    ensures SameReceive(w.ports[q], Unselected(w, p).ports[q])
  {
    UnselectedSignals(w, p);
    assert Signalled(w.ports[q], Unselected(w, p).ports[q]);
  }

  lemma CurrentOther(w: World, p: PortID, pdu: LACPDU, q: PortID)
    requires Inv(w) && p in w.ports && q in w.ports && q != p
    ensures SameReceive(w.ports[q], Current(w, p, pdu).ports[q])
  {
    var w0 := SetPort(w, p, w.ports[p].(rx := CURRENT));
    UnselectedOther(w0, p, q);
    RecordedKeeps(w, p, pdu);
    SelectSame(Recorded(w, p, pdu), p, q);
  }

  lemma OtherHears(w: World, e: Event, q: PortID)
    requires Inv(w) && Enabled(w, e) && Step(w, e).Running? && q in w.ports && q != e.port
    ensures q in Step(w, e).world.ports && SameReceive(w.ports[q], Step(w, e).world.ports[q])
  {
    var p := e.port;
    match e
    case Start(_) => UnselectedOther(w, p, q);
    case PortUp(_) =>
    case PortDown(_) => DownOther(w, p, q);
    case Received(_, pdu) => if w.ports[p].rx != DISABLED { CurrentOther(w, p, pdu, q); }
    case ReceiveTimeout(_) => TimeoutOther(w, p, q);
    case MuxTimerFired(_) =>
  }

  lemma DownOther(w: World, p: PortID, q: PortID)
    requires p in w.ports && q in w.ports && q != p
    ensures SameReceive(w.ports[q], TakenDown(w, p).ports[q])
  {
    UnselectedOther(SetPort(w, p, RxDisabled(w.ports[p].(up := false))), p, q);
  }

  lemma TimeoutOther(w: World, p: PortID, q: PortID)
    requires p in w.ports && q in w.ports && q != p && Step(w, ReceiveTimeout(p)).Running?
    ensures SameReceive(w.ports[q], Step(w, ReceiveTimeout(p)).world.ports[q])
  {
    var fired := w.ports[p].(rxTimer := false);
    if w.ports[p].rx == EXPIRED {
      UnselectedOther(SetPort(SetPort(w, p, fired), p, fired.(rx := DEFAULTED)), p, q);
    }
  }

  /** What every port remembers after every event: its own event settles its receive machine, its
      timer, its partner, whether they match and the flags EXPIRED and DEFAULTED; events of other
      ports change none of these; and nothing changes the configured flags. */
  lemma HearsExactly(w: World, e: Event, q: PortID)
    requires Inv(w) && Enabled(w, e) && q in w.ports
    ensures Step(w, e).Running? && q in Step(w, e).world.ports
    ensures var p, p' := w.ports[q], Step(w, e).world.ports[q];
            && SameConfig(p, e, p')
            && if q == e.port then Hears(p, e, p') else SameEpoch(p, p')
  {
    StepKeeps(w, e);
    if q == e.port {
      OwnHears(w, e);
    } else {
      OtherHears(w, e, q);
      assert w.ports[q].cfg.portID == q;
    }
  }

  // ---- runs ----

  /** The flags of the actor that are not the mux's: as configured, and as the receive machine is. */
  predicate FlagsFollowReceive(p: Port)
  {
    && p.actor.active == p.cfg.active && p.actor.shortTimeout == p.cfg.shortTimeout
    && p.actor.aggregatable == p.cfg.aggregatable
    && (p.rx == EXPIRED ==> p.actor.expired) && (p.rx == CURRENT || p.rx == DEFAULTED ==> !p.actor.expired)
    && (p.rx == DEFAULTED ==> p.actor.defaulted) && (p.rx == CURRENT ==> !p.actor.defaulted)
  }

  lemma FlagsStep(w: World, e: Event, w': World, q: PortID)
    requires Inv(w) && StepsTo(w, e, w') && q in w.ports && FlagsFollowReceive(w.ports[q])
    ensures q in w'.ports && FlagsFollowReceive(w'.ports[q])
  {
    HearsExactly(w, e, q);
  }

  /** In every run the actor is ACTIVE, of SHORT_TIMEOUT and AGGREGATABLE as configured, EXPIRED while
      its receive machine is and not when it is CURRENT or DEFAULTED, and DEFAULTED while its receive
      machine is and not when it is CURRENT. */
  lemma {:induction false} ActorFlags(worlds: seq<World>, events: seq<Event>, i: nat, p: PortID)
    requires IsRun(worlds, events) && i < |worlds| && p in worlds[i].ports
    ensures FlagsFollowReceive(worlds[i].ports[p])
  {
    if i == 0 {
      InitialFlags(worlds[0], p);
    } else {
      var w, e := worlds[i - 1], events[i - 1];
      assert StepsTo(w, e, worlds[i]);
      assert p in w.ports by { SamePorts(w, e, worlds[i]); }
      assert FlagsFollowReceive(w.ports[p]) by { ActorFlags(worlds, events, i - 1, p); }
      assert Inv(w) by { RunInv(worlds, events, i - 1); }
      FlagsStep(w, e, worlds[i], p);
    }
  }

  lemma InitialFlags(w: World, p: PortID)
    requires Initial(w) && p in w.ports
    ensures FlagsFollowReceive(w.ports[p])
  {
    assert w.ports[p] == NewPort(w.ports[p].cfg, w.ports[p].up);
  }
}
