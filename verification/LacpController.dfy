/** The LACP machines as objects that signal each other, proved to do what the functions of
    `LacpMachines` say. */
module LacpController {
  import opened LacpTypes
  import opened LacpMachines
  import opened LacpInvariants
  import opened LacpRuns
  import opened LacpReceive

  /** `LacpController` together with the machines it owns. */
  class Controller {
    const cfg: Config
    var up: bool
    var actor: LacpState
    var rx: ReceiveState
    var rxTimer: bool
    var partner: ParticipantInfo
    var mux: MuxState
    var matched: bool
    var selection: U16
    var muxTimer: bool
    var commands: seq<Command>

    function State(): Port
      reads this
    {
      Port(cfg, up, actor, rx, rxTimer, partner, mux, matched, selection, muxTimer, commands)
    }

    constructor (cfg: Config, up: bool)
      ensures State() == NewPort(cfg, up)
    {
      this.cfg := cfg;
      this.up := up;
      var flags := NO_FLAGS;
      if cfg.aggregatable { flags := flags.(aggregatable := true); }
      if cfg.shortTimeout { flags := flags.(shortTimeout := true); }
      if cfg.active { flags := flags.(active := true); }
      actor := flags;
      rx, rxTimer, partner := INITIALIZED, false, DEFAULT_PARTICIPANT;
      mux, matched, selection, muxTimer, commands := DETACHED, false, 0, false, [];
    }

    method Detached()
      modifies this
      ensures State() == MuxDetached(old(State()))
    {
      mux := DETACHED;
      actor := actor.(inSync := false, collecting := false);
      commands := commands + [Disable(selection)];
      actor := actor.(distributing := false);
    }

    method Waiting(schedule: bool)
      modifies this
      ensures State() == MuxWaiting(old(State()), schedule)
    {
      mux := WAITING;
      if schedule { muxTimer := true; }
    }

    method Attached()
      modifies this
      ensures State() == MuxAttached(old(State()))
    {
      mux := ATTACHED;
      actor := actor.(inSync := true);
      actor := actor.(collecting := false);
      commands := commands + [Disable(selection)];
      actor := actor.(distributing := false);
    }

    method CollectingDistributing()
      modifies this
      ensures State() == MuxCollectingDistributing(old(State()))
    {
      mux := COLLECTING_DISTRIBUTING;
      actor := actor.(distributing := true);
      commands := commands + [Enable(selection)];
      actor := actor.(collecting := true);
    }

    method SignalSelected(aggregate: U16)
      modifies this
      ensures State() == MuxSelected(old(State()), aggregate)
    {
      selection := aggregate;
      match mux
      case DETACHED => Waiting(true);
      case WAITING => Attached();
      case _ =>
    }

    method SignalUnselected()
      modifies this
      ensures State() == MuxUnselected(old(State()))
    {
      match mux
      case DETACHED =>
      case WAITING => Detached();
      case ATTACHED => Detached();
      case COLLECTING_DISTRIBUTING => Attached();
    }

    method SignalStandby()
      modifies this
      ensures State() == MuxStandby(old(State()))
    {
      match mux
      case DETACHED => Waiting(false);
      case WAITING =>
      case _ => Detached();
    }

    method SignalMatched()
      modifies this
      ensures State() == MuxMatched(old(State()))
    {
      matched := true;
      if mux == ATTACHED { CollectingDistributing(); }
    }

    method SignalNotMatched()
      modifies this
      ensures State() == MuxNotMatched(old(State()))
    {
      matched := false;
      if mux == COLLECTING_DISTRIBUTING { Attached(); }
    }

    method MuxTimeoutExpired()
      modifies this
      ensures State() == MuxTimeout(old(State()))
    {
      muxTimer := false;
      Attached();
      if matched { CollectingDistributing(); }
    }

    method RecordDefaultPartner()
      modifies this
      ensures State() == RecordDefault(old(State()))
    {
      partner := DEFAULT_PARTICIPANT;
      actor := actor.(defaulted := true);
    }

    method EnterReceive(rx: ReceiveState, timer: bool)
      modifies this
      ensures State() == old(State()).(rx := rx, rxTimer := timer)
    {
      this.rx, rxTimer := rx, timer;
    }

    method ForgetSync()
      modifies this
      ensures var p := old(State());
              State() == p.(rx := EXPIRED,
                            partner := p.partner.(state := p.partner.state.(shortTimeout := true, inSync := false)))
    {
      rx := EXPIRED;
      partner := partner.(state := partner.state.(shortTimeout := true));
      partner := partner.(state := partner.state.(inSync := false));
    }

    method Expired()
      modifies this
      ensures State() == RxExpired(old(State()))
    {
      ForgetSync();
      SignalNotMatched();
      actor := actor.(expired := true);
      rxTimer := true;
    }

    method Disabled()
      modifies this
      ensures State() == RxDisabled(old(State()))
    {
      rx := DISABLED;
      rxTimer := false;
      partner := partner.(state := partner.state.(inSync := false));
      SignalNotMatched();
    }

    method Record(pdu: LACPDU)
      modifies this
      ensures State() == RecordPDU(old(State()), pdu)
      ensures matched <==> InSyncWith(pdu, cfg)
    {
      var matches := PduMatches(State(), pdu);
      MatchesExactly(State(), pdu);
      StorePartner(pdu.actorInfo, matches);
      if matches {
        SignalMatched();
      } else {
        SignalNotMatched();
      }
    }

    method StorePartner(info: ParticipantInfo, inSync: bool)
      modifies this
      ensures State() == old(State()).(partner := info.(state := info.state.(inSync := inSync)),
                                       actor := old(State()).actor.(defaulted := false))
    {
      partner := info;
      actor := actor.(defaulted := false);
      partner := partner.(state := partner.state.(inSync := inSync));
    }

    /** The rest of `initialize` once the selector has been told. */
    method ResetPartner()
      modifies this
      ensures State() == FreshlyStarted(old(State()))
    {
      RecordDefaultPartner();
      actor := actor.(expired := false);
      Disabled();
    }

    method TakeDown()
      modifies this
      ensures State() == RxDisabled(old(State()).(up := false))
    {
      up := false;
      Disabled();
    }

    method BringUp()
      modifies this
      ensures State() == RxExpired(old(State()).(up := true))
    {
      up := true;
      Expired();
    }

    method EpochOver()
      modifies this
      ensures State() == RxExpired(old(State()).(rxTimer := false))
    {
      rxTimer := false;
      Expired();
    }

    method Hear(pdu: LACPDU)
      modifies this
      ensures State() == Heard(old(State()), pdu)
    {
      Record(pdu);
      actor := actor.(expired := false);
    }

    method AssumeDefault()
      modifies this
      ensures State() == DefaultAssumed(old(State()))
    {
      RecordDefaultPartner();
      actor := actor.(expired := false);
    }
  }

  /** `LinkAggregationManager`: the controllers, and the selection map their selectors share.
      `world` is what the functions of `LacpMachines` speak about. */
  class Manager {
    ghost var world: World
    var portToController: map<PortID, Controller>
    var portToSelection: map<PortID, Selection>

    ghost predicate Valid()
      reads this, portToController.Values
    {
      && world.sel == portToSelection
      && portToSelection.Keys <= portToController.Keys
      && world.ports.Keys == portToController.Keys
      && forall p :: p in portToController ==> Tracked(p)
    }

    ghost predicate Tracked(p: PortID)
      requires p in portToController
      reads this, portToController[p]
    {
      && p in world.ports
      && portToController[p].cfg.portID == p
      && portToController[p].State() == world.ports[p]
    }

    constructor ()
      ensures Valid() && world == World(map[], map[]) && portToController == map[] && Initial(world)
    {
      portToController := map[];
      portToSelection := map[];
      world := World(map[], map[]);
    }

    /** `aggregatePortAdded` for one member. */
    method AddMember(cfg: Config, up: bool)
      requires Valid() && cfg.portID !in portToController
      modifies this
      ensures Valid() && world == SetPort(old(world), cfg.portID, NewPort(cfg, up))
      ensures old(Initial(world)) && SharedMinLinks(world) ==> Initial(world)
    {
      var c := new Controller(cfg, up);
      portToController := portToController[cfg.portID := c];
      world := SetPort(world, cfg.portID, NewPort(cfg, up));
    }

    /** The ports whose selection is exactly `s`, which is what signals go to. */
    method GetPortsWithSelection(s: Selection) returns (ports: set<PortID>)
      ensures ports == set p | p in portToSelection && portToSelection[p] == s
    {
      ports := {};
      var todo := portToSelection.Keys;
      while todo != {}
        invariant todo <= portToSelection.Keys
        invariant ports == set p | p in portToSelection && p !in todo && portToSelection[p] == s
        decreases |todo|
      {
        var p :| p in todo;
        todo := todo - {p};
        if portToSelection[p] == s { ports := ports + {p}; }
      }
    }

    method StandbyOne(p: PortID)
      requires Valid() && p in portToController
      modifies this, portToController.Values
      ensures Valid() && portToController == old(portToController)
      ensures world == StandbyAll(old(world), {p})
    {
      StandbyOnly(world, p);
      var c := portToController[p];
      c.SignalStandby();
      if p in portToSelection {
        portToSelection := portToSelection[p := portToSelection[p].(state := STANDBY)];
      }
      world := StandbyAll(world, {p});
    }

    /** `LacpController::standby` for a range of ports: signalling them one after the other, in
        any order, is the same as signalling all of them at once. */
    method Standby(ports: set<PortID>)
      requires Valid() && ports <= portToController.Keys
      modifies this, portToController.Values
      ensures Valid() && portToController == old(portToController)
      ensures world == StandbyAll(old(world), ports)
    {
      var todo := ports;
      ghost var w, done := world, {};
      SignalNone(w);
      while todo != {}
        invariant Valid() && portToController == old(portToController)
        invariant Split(ports, done, todo)
        invariant world == StandbyAll(w, done)
        decreases |todo|
      {
        var p :| p in todo;
        MoveOne(ports, done, todo, p);
        StandbyOne(p);
        StandbyMore(w, done, p);
        todo, done := todo - {p}, done + {p};
      }
      SplitDone(ports, done);
    }

    method SelectedOne(p: PortID)
      requires Valid() && p in portToSelection
      modifies this, portToController.Values
      ensures Valid() && portToController == old(portToController)
      ensures world == SelectedAll(old(world), {p})
    {
      SelectedOnly(world, p);
      var c := portToController[p];
      c.SignalSelected(portToSelection[p].lagID.actorKey);
      portToSelection := portToSelection[p := portToSelection[p].(state := SELECTED)];
      world := SelectedAll(world, {p});
    }

    /** `LacpController::selected` for a range of ports. */
    method Selected(ports: set<PortID>)
      requires Valid() && ports <= portToSelection.Keys
      modifies this, portToController.Values
      ensures Valid() && portToController == old(portToController)
      ensures world == SelectedAll(old(world), ports)
    {
      var todo := ports;
      ghost var w, done := world, {};
      SignalNone(w);
      while todo != {}
        invariant Valid() && portToController == old(portToController)
        invariant Split(ports, done, todo)
        invariant world == SelectedAll(w, done)
        decreases |todo|
      {
        var p :| p in todo;
        MoveOne(ports, done, todo, p);
        SelectedOne(p);
        SelectedMore(w, done, p);
        todo, done := todo - {p}, done + {p};
      }
      SplitDone(ports, done);
    }

    /** `Selector::unselected`. */
    method GiveUpGroup(p: PortID)
      requires Valid()
      modifies this, portToController.Values
      ensures Valid() && portToController == old(portToController)
      ensures world == Deselect(old(world), p)
    {
      if p !in portToSelection { return; }
      var lag := portToSelection[p].lagID;
      portToSelection := portToSelection - {p};
      world := world.(sel := world.sel - {p});
      var ports := GetPortsWithSelection(Selection(lag, SELECTED));
      assert ports == Members(world, lag, SELECTED);
      Standby(ports);
    }

    /** `LacpController::unselected`. */
    method UnselectedPort(p: PortID)
      requires Valid() && p in portToController
      modifies this, portToController.Values
      ensures Valid() && portToController == old(portToController)
      ensures world == Unselected(old(world), p)
    {
      GiveUpGroup(p);
      SignalPort(p);
    }

    method SignalPort(p: PortID)
      requires Valid() && p in portToController
      modifies this, portToController.Values
      ensures Valid() && portToController == old(portToController)
      ensures world == SetPort(old(world), p, MuxUnselected(old(world).ports[p]))
    {
      var c := portToController[p];
      c.SignalUnselected();
      world := SetPort(world, p, c.State());
    }

    method LagSelected(lag: LagID) returns (found: bool)
      ensures found == LagInUse(World(map[], portToSelection), lag)
    {
      var todo := portToSelection.Keys;
      found := false;
      while todo != {}
        invariant todo <= portToSelection.Keys
        invariant found <==> exists q :: q in portToSelection && q !in todo && portToSelection[q].lagID == lag
        decreases |todo|
      {
        var p :| p in todo;
        todo := todo - {p};
        if portToSelection[p].lagID == lag { found := true; }
      }
    }

    method IsAvailable(aggregate: U16) returns (available: bool)
      ensures available == !KeyInUse(World(map[], portToSelection), aggregate)
    {
      var todo := portToSelection.Keys;
      available := true;
      while todo != {}
        invariant todo <= portToSelection.Keys
        invariant available <==>
          !exists q :: q in portToSelection && q !in todo && portToSelection[q].lagID.actorKey == aggregate
        decreases |todo|
      {
        var p :| p in todo;
        todo := todo - {p};
        if portToSelection[p].lagID.actorKey == aggregate { available := false; }
      }
    }

    /** The `count_if` of `Selector::select`. */
    method CountStandby(lag: LagID) returns (n: nat)
      ensures n == |set p | p in portToSelection && portToSelection[p] == Selection(lag, STANDBY)|
    {
      n := 0;
      var todo := portToSelection.Keys;
      ghost var seen: set<PortID> := {};
      while todo != {}
        invariant todo <= portToSelection.Keys
        invariant seen == set p | p in portToSelection && p !in todo && portToSelection[p] == Selection(lag, STANDBY)
        invariant n == |seen|
        decreases |todo|
      {
        var p :| p in todo;
        todo := todo - {p};
        if portToSelection[p].lagID == lag && portToSelection[p].state == STANDBY {
          seen := seen + {p};
          n := n + 1;
        }
      }
      assert seen == set p | p in portToSelection && portToSelection[p] == Selection(lag, STANDBY);
    }

    method ChooseLag(p: PortID, lag: LagID, state: SelectionState)
      requires Valid() && p in portToController
      modifies this, portToController.Values
      ensures Valid() && portToController == old(portToController) && p in portToSelection
      ensures world ==
              if state == SELECTED then ChooseSelected(old(world), p, lag) else ChooseStandby(old(world), p, lag)
    {
      if p !in portToSelection {
        portToSelection := portToSelection[p := Selection(lag, state)];
      }
      world := InsertSelection(world, p, Selection(lag, state));
      if state == SELECTED {
        SelectedOne(p);
      } else {
        StandbyOne(p);
      }
    }

    /** The last part of `Selector::select`. */
    method PromoteStandby(lag: LagID, minLinks: nat)
      requires Valid()
      modifies this, portToController.Values
      ensures Valid() && portToController == old(portToController)
      ensures world == Promote(old(world), lag, minLinks)
    {
      var n := CountStandby(lag);
      var ports := GetPortsWithSelection(Selection(lag, STANDBY));
      assert ports == Members(world, lag, STANDBY);
      if n == minLinks {
        Selected(ports);
      }
    }

    /** `Selector::select`. */
    method SelectPort(p: PortID)
      requires Valid() && p in portToController
      modifies this, portToController.Values
      ensures Valid() && portToController == old(portToController)
      ensures world == Select(old(world), p)
    {
      var port := portToController[p].State();
      var lag := TargetLag(port);
      if p in portToSelection && portToSelection[p].lagID == lag { return; }
      if !port.partner.state.aggregatable || !port.actor.aggregatable {
        ChooseLag(p, lag, SELECTED);
        return;
      }
      var inUse := LagSelected(lag);
      var available := IsAvailable(port.cfg.aggregatePortID);
      assert inUse == LagInUse(world, lag) && available == !KeyInUse(world, port.cfg.aggregatePortID);
      if inUse || available {
        ChooseLag(p, lag, STANDBY);
        PromoteStandby(lag, port.cfg.minLinkCount);
      }
    }

    // -------------------------------------------------------------------------
    // Events
    // -------------------------------------------------------------------------

    /** The outcome of an event: the step of the model, or a failed CHECK that changes nothing. */
    twostate predicate Delivered(e: Event, ok: bool)
      requires old(Enabled(world, e))
      reads this
    {
      if ok then Step(old(world), e) == Running(world)
      else Step(old(world), e) == CheckFailed && world == old(world)
    }

    /** `ReceiveMachine::start`, which demands a controller that has not been started. */
    method StartMachines(p: PortID)
      requires Valid() && p in portToController && Enabled(world, Start(p))
      modifies this, portToController.Values
      ensures Valid() && portToController == old(portToController)
      ensures Delivered(Start(p), true) && (old(Inv(world)) ==> Inv(world))
    {
      Inherits(world, Start(p));
      UnselectedPort(p);
      ResetPort(p);
    }

    method ResetPort(p: PortID)
      requires Valid() && p in portToController
      modifies this, portToController.Values
      ensures Valid() && portToController == old(portToController)
      ensures world == SetPort(old(world), p, FreshlyStarted(old(world).ports[p]))
    {
      var c := portToController[p];
      c.ResetPartner();
      world := SetPort(world, p, c.State());
    }

    /** `ReceiveMachine::portUp`; `ok` is false when the receive machine is not disabled. */
    method PortUp(p: PortID) returns (ok: bool)
      requires Valid() && p in portToController && Enabled(world, Event.PortUp(p))
      modifies this, portToController.Values
      ensures Valid() && portToController == old(portToController)
      ensures Delivered(Event.PortUp(p), ok) && (old(Inv(world)) ==> ok && Inv(world))
    {
      Inherits(world, Event.PortUp(p));
      var c := portToController[p];
      ok := c.rx == DISABLED;
      if ok {
        RaisePort(p);
      }
    }

    method RaisePort(p: PortID)
      requires Valid() && p in portToController
      modifies this, portToController.Values
      ensures Valid() && portToController == old(portToController)
      ensures world == SetPort(old(world), p, RxExpired(old(world).ports[p].(up := true)))
    {
      var c := portToController[p];
      c.BringUp();
      world := SetPort(world, p, c.State());
    }

    /** `LacpController::portDown`. */
    method PortDown(p: PortID)
      requires Valid() && p in portToController && Enabled(world, Event.PortDown(p))
      modifies this, portToController.Values
      ensures Valid() && portToController == old(portToController)
      ensures Delivered(Event.PortDown(p), true) && (old(Inv(world)) ==> Inv(world))
    {
      Inherits(world, Event.PortDown(p));
      DisablePort(p);
      if p in portToSelection { UnselectedPort(p); }
    }

    method DisablePort(p: PortID)
      requires Valid() && p in portToController
      modifies this, portToController.Values
      ensures Valid() && portToController == old(portToController)
      ensures world == SetPort(old(world), p, RxDisabled(old(world).ports[p].(up := false)))
    {
      var c := portToController[p];
      c.TakeDown();
      world := SetPort(world, p, c.State());
    }

    method EnterState(p: PortID, rx: ReceiveState, timer: bool)
      requires Valid() && p in portToController
      modifies this, portToController.Values
      ensures Valid() && portToController == old(portToController)
      ensures world == SetPort(old(world), p, old(world).ports[p].(rx := rx, rxTimer := timer))
    {
      var c := portToController[p];
      c.EnterReceive(rx, timer);
      world := SetPort(world, p, c.State());
    }

    method HearPort(p: PortID, pdu: LACPDU)
      requires Valid() && p in portToController
      modifies this, portToController.Values
      ensures Valid() && portToController == old(portToController)
      ensures world == SetPort(old(world), p, Heard(old(world).ports[p], pdu))
    {
      var c := portToController[p];
      c.Hear(pdu);
      world := SetPort(world, p, c.State());
    }

    /** `updateSelected` and `recordPDU`. */
    method RecordPort(p: PortID, pdu: LACPDU)
      requires Valid() && p in portToController
      modifies this, portToController.Values
      ensures Valid() && portToController == old(portToController)
      ensures world == Recorded(old(world), p, pdu)
    {
      var c := portToController[p];
      EnterState(p, CURRENT, c.rxTimer);
      if PartnerChanged(c.State(), pdu) {
        UnselectedPort(p);
      }
      HearPort(p, pdu);
    }

    /** `ReceiveMachine::rx`. */
    method Receive(p: PortID, pdu: LACPDU)
      requires Valid() && p in portToController && Enabled(world, Received(p, pdu))
      modifies this, portToController.Values
      ensures Valid() && portToController == old(portToController)
      ensures Delivered(Received(p, pdu), true) && (old(Inv(world)) ==> Inv(world))
    {
      Inherits(world, Received(p, pdu));
      var c := portToController[p];
      if c.rx == DISABLED { return; }
      RecordPort(p, pdu);
      SelectPort(p);
      EnterState(p, c.rx, true);
    }

    method AssumeDefaultPort(p: PortID)
      requires Valid() && p in portToController
      modifies this, portToController.Values
      ensures Valid() && portToController == old(portToController)
      ensures world == SetPort(old(world), p, DefaultAssumed(old(world).ports[p]))
    {
      var c := portToController[p];
      c.AssumeDefault();
      world := SetPort(world, p, c.State());
    }

    /** `ReceiveMachine::defaulted`. */
    method DefaultPort(p: PortID)
      requires Valid() && p in portToController
      modifies this, portToController.Values
      ensures Valid() && portToController == old(portToController)
      ensures world == Defaulted(old(world), p)
    {
      var c := portToController[p];
      EnterState(p, DEFAULTED, c.rxTimer);
      if c.partner != DEFAULT_PARTICIPANT { UnselectedPort(p); }
      AssumeDefaultPort(p);
    }

    method ExpirePort(p: PortID)
      requires Valid() && p in portToController
      modifies this, portToController.Values
      ensures Valid() && portToController == old(portToController)
      ensures world == SetPort(old(world), p, RxExpired(old(world).ports[p].(rxTimer := false)))
    {
      var c := portToController[p];
      c.EpochOver();
      world := SetPort(world, p, c.State());
    }

    /** `ReceiveMachine::timeoutExpired`; `ok` is false in the states where the source throws. */
    method ReceiveTimeoutExpired(p: PortID) returns (ok: bool)
      requires Valid() && p in portToController && Enabled(world, ReceiveTimeout(p))
      modifies this, portToController.Values
      ensures Valid() && portToController == old(portToController)
      ensures Delivered(ReceiveTimeout(p), ok) && (old(Inv(world)) ==> ok && Inv(world))
    {
      Inherits(world, ReceiveTimeout(p));
      var c := portToController[p];
      ok := true;
      match c.rx {
        case CURRENT => ExpirePort(p);
        case EXPIRED =>
          EnterState(p, c.rx, false);
          DefaultPort(p);
        case DISABLED | INITIALIZED | DEFAULTED => ok := false;
      }
    }

    /** `MuxMachine::timeoutExpired`. */
    method MuxTimeoutExpired(p: PortID)
      requires Valid() && p in portToController && Enabled(world, MuxTimerFired(p))
      modifies this, portToController.Values
      ensures Valid() && portToController == old(portToController)
      ensures Delivered(MuxTimerFired(p), true) && (old(Inv(world)) ==> Inv(world))
    {
      Inherits(world, MuxTimerFired(p));
      EndWait(p);
    }

    method EndWait(p: PortID)
      requires Valid() && p in portToController
      modifies this, portToController.Values
      ensures Valid() && portToController == old(portToController)
      ensures world == SetPort(old(world), p, MuxTimeout(old(world).ports[p]))
    {
      var c := portToController[p];
      c.MuxTimeoutExpired();
      world := SetPort(world, p, c.State());
    }
  }

  /** Whatever the objects do as the model's step does, they do within the invariant. */
  lemma Inherits(w: World, e: Event)
    requires Enabled(w, e)
    ensures Inv(w) ==> Step(w, e).Running? && Inv(Step(w, e).world)
  {
    if Inv(w) {
      StepKeeps(w, e);
    }
  }

  /** Every port is either signalled or still to be signalled. */
  predicate Split(ports: set<PortID>, done: set<PortID>, todo: set<PortID>)
  {
    ports == done + todo && done !! todo
  }

  lemma MoveOne(ports: set<PortID>, done: set<PortID>, todo: set<PortID>, p: PortID)
    requires Split(ports, done, todo) && p in todo
    ensures p !in done && p in ports && Split(ports, done + {p}, todo - {p})
  {
  }

  lemma SplitDone(ports: set<PortID>, done: set<PortID>)
    requires Split(ports, done, {})
    ensures done == ports
  {
  }

  lemma SignalNone(w: World)
    ensures StandbyAll(w, {}) == w && SelectedAll(w, {}) == w
  {
  }

  lemma StandbyMore(w: World, s: set<PortID>, p: PortID)
    requires p !in s
    ensures StandbyAll(StandbyAll(w, s), {p}) == StandbyAll(w, s + {p})
  {
  }

  lemma SelectedMore(w: World, s: set<PortID>, p: PortID)
    requires p !in s && s + {p} <= w.sel.Keys
    ensures SelectedAll(SelectedAll(w, s), {p}) == SelectedAll(w, s + {p})
  {
  }

  lemma StandbyOnly(w: World, p: PortID)
    requires p in w.ports
    ensures StandbyAll(w, {p}).ports == w.ports[p := MuxStandby(w.ports[p])]
    ensures StandbyAll(w, {p}).sel == if p in w.sel then w.sel[p := w.sel[p].(state := STANDBY)] else w.sel
  {
  }

  lemma SelectedOnly(w: World, p: PortID)
    requires p in w.ports && p in w.sel
    ensures SelectedAll(w, {p}).ports == w.ports[p := MuxSelected(w.ports[p], w.sel[p].lagID.actorKey)]
    ensures SelectedAll(w, {p}).sel == w.sel[p := w.sel[p].(state := SELECTED)]
  {
  }
}
