/** The LACP machines of one port and the signals between ports, as functions on values.
    A `World` holds every port's machines and the selection map all ports share. */
module LacpMachines {
  import opened Wrappers
  import opened LacpTypes

  datatype ReceiveState = INITIALIZED | CURRENT | EXPIRED | DEFAULTED | DISABLED
  datatype MuxState = DETACHED | WAITING | ATTACHED | COLLECTING_DISTRIBUTING
  datatype SelectionState = SELECTED | STANDBY
  datatype Selection = Selection(lagID: LagID, state: SelectionState)

  /** A forwarding update handed to the servicer; the aggregate is the one the mux names. */
  datatype Command = Enable(aggregate: U16) | Disable(aggregate: U16)

  /** What the configuration fixes for a member port. */
  datatype Config = Config(
    portID: PortID,
    aggregatePortID: U16,
    portPriority: U16,
    systemPriority: U16,
    systemID: SystemID,
    aggregatable: bool,
    shortTimeout: bool,
    active: bool,
    minLinkCount: Byte)

  datatype Port = Port(
    cfg: Config,
    up: bool,                    // operational state last reported by the switch
    actor: LacpState,
    rx: ReceiveState,
    rxTimer: bool,               // receive timeout pending
    partner: ParticipantInfo,
    mux: MuxState,
    matched: bool,
    selection: U16,              // aggregate named by the last SELECTED signal
    muxTimer: bool,              // aggregate-wait timeout pending
    commands: seq<Command>)

  datatype LACPDU = LACPDU(actorInfo: ParticipantInfo, partnerInfo: ParticipantInfo)

  datatype World = World(ports: map<PortID, Port>, sel: map<PortID, Selection>)

  predicate Closed(w: World)
  {
    && w.sel.Keys <= w.ports.Keys
    && forall p :: p in w.ports ==> w.ports[p].cfg.portID == p
  }

  function ActorInfo(p: Port): ParticipantInfo
  {
    ParticipantInfo(
      p.cfg.systemPriority, p.cfg.systemID, p.cfg.aggregatePortID, p.cfg.portPriority, p.cfg.portID, p.actor)
  }

  function TargetLag(p: Port): LagID
  {
    LagFrom(ActorInfo(p), p.partner)
  }

  predicate Individual(p: Port)
  {
    !p.partner.state.aggregatable || !p.actor.aggregatable
  }

  function NewPort(cfg: Config, up: bool): Port
  {
    var actor := NO_FLAGS.(
      aggregatable := cfg.aggregatable, shortTimeout := cfg.shortTimeout, active := cfg.active);
    Port(cfg, up, actor, INITIALIZED, false, DEFAULT_PARTICIPANT, DETACHED, false, 0, false, [])
  }

  // ---------------------------------------------------------------------------
  // Mux machine
  // ---------------------------------------------------------------------------

  function MuxDetached(p: Port): Port
  {
    p.(mux := DETACHED,
       actor := p.actor.(inSync := false, collecting := false, distributing := false),
       commands := p.commands + [Disable(p.selection)])
  }

  function MuxWaiting(p: Port, schedule: bool): Port
  {
    p.(mux := WAITING, muxTimer := p.muxTimer || schedule)
  }

  function MuxAttached(p: Port): Port
  {
    p.(mux := ATTACHED,
       actor := p.actor.(inSync := true, collecting := false, distributing := false),
       commands := p.commands + [Disable(p.selection)])
  }

  function MuxCollectingDistributing(p: Port): Port
  {
    p.(mux := COLLECTING_DISTRIBUTING,
       actor := p.actor.(collecting := true, distributing := true),
       commands := p.commands + [Enable(p.selection)])
  }

  function MuxSelected(p: Port, aggregate: U16): Port
  {
    var q := p.(selection := aggregate);
    match q.mux
    case DETACHED => MuxWaiting(q, true)
    case WAITING => MuxAttached(q)
    case _ => q
  }

  function MuxUnselected(p: Port): Port
  {
    match p.mux
    case DETACHED => p
    case WAITING => MuxDetached(p)
    case ATTACHED => MuxDetached(p)
    case COLLECTING_DISTRIBUTING => MuxAttached(p)
  }

  function MuxStandby(p: Port): Port
  {
    match p.mux
    case DETACHED => MuxWaiting(p, false)
    case WAITING => p
    case _ => MuxDetached(p)
  }

  function MuxMatched(p: Port): Port
  {
    var q := p.(matched := true);
    if q.mux == ATTACHED then MuxCollectingDistributing(q) else q
  }

  function MuxNotMatched(p: Port): Port
  {
    var q := p.(matched := false);
    if q.mux == COLLECTING_DISTRIBUTING then MuxAttached(q) else q
  }

  /** The aggregate-wait timer fires whatever state the mux is in: nothing cancels it. */
  function MuxTimeout(p: Port): Port
  {
    var q := MuxAttached(p.(muxTimer := false));
    if q.matched then MuxCollectingDistributing(q) else q
  }

  // ---------------------------------------------------------------------------
  // Receive machine, the parts that concern one port only
  // ---------------------------------------------------------------------------

  function RecordDefault(p: Port): Port
  {
    p.(partner := DEFAULT_PARTICIPANT, actor := p.actor.(defaulted := true))
  }

  function RxExpired(p: Port): Port
  {
    var q := p.(rx := EXPIRED,
                partner := p.partner.(state := p.partner.state.(shortTimeout := true, inSync := false)));
    var r := MuxNotMatched(q);
    r.(actor := r.actor.(expired := true), rxTimer := true)
  }

  function RxDisabled(p: Port): Port
  {
    MuxNotMatched(
      p.(rx := DISABLED, rxTimer := false,
         partner := p.partner.(state := p.partner.state.(inSync := false))))
  }

  predicate PduMatches(p: Port, pdu: LACPDU)
  {
    && (SameParticipant(pdu.partnerInfo, ActorInfo(p)) || !pdu.actorInfo.state.aggregatable)
    && pdu.actorInfo.state.inSync
  }

  function RecordPDU(p: Port, pdu: LACPDU): Port
  {
    var matches := PduMatches(p, pdu);
    var q := p.(partner := pdu.actorInfo.(state := pdu.actorInfo.state.(inSync := matches)),
                actor := p.actor.(defaulted := false));
    if matches then MuxMatched(q) else MuxNotMatched(q)
  }

  function Heard(p: Port, pdu: LACPDU): Port
  {
    var q := RecordPDU(p, pdu);
    q.(actor := q.actor.(expired := false))
  }

  function DefaultAssumed(p: Port): Port
  {
    var q := RecordDefault(p);
    q.(actor := q.actor.(expired := false))
  }

  function FreshlyStarted(p: Port): Port
  {
    RxDisabled(DefaultAssumed(p))
  }

  predicate PartnerChanged(p: Port, pdu: LACPDU)
  {
    || !SameParticipant(pdu.actorInfo, p.partner)
    || pdu.actorInfo.state.aggregatable != p.partner.state.aggregatable
  }

  // ---------------------------------------------------------------------------
  // Selector and the signals it sends to other ports
  // ---------------------------------------------------------------------------

  function Members(w: World, lag: LagID, state: SelectionState): set<PortID>
  {
    set q | q in w.sel && w.sel[q] == Selection(lag, state)
  }

  /** STANDBY signalled to every port of `s` at once. */
  function StandbyAll(w: World, s: set<PortID>): (r: World)
    ensures r.ports.Keys == w.ports.Keys && r.sel.Keys == w.sel.Keys
  {
    w.(ports := map q | q in w.ports :: if q in s then MuxStandby(w.ports[q]) else w.ports[q],
       sel := map q | q in w.sel :: if q in s then w.sel[q].(state := STANDBY) else w.sel[q])
  }

  /** SELECTED signalled to every port of `s` at once. */
  function SelectedAll(w: World, s: set<PortID>): (r: World)
    requires s <= w.sel.Keys
    ensures r.ports.Keys == w.ports.Keys && r.sel.Keys == w.sel.Keys
  {
    w.(ports := map q | q in w.ports :: if q in s then MuxSelected(w.ports[q], w.sel[q].lagID.actorKey) else w.ports[q],
       sel := map q | q in w.sel :: if q in s then w.sel[q].(state := SELECTED) else w.sel[q])
  }

  function SetPort(w: World, p: PortID, port: Port): World
  {
    w.(ports := w.ports[p := port])
  }

  /** A port gives up its group: every other SELECTED member of the group goes to STANDBY. */
  function Deselect(w: World, p: PortID): (r: World)
    ensures r.ports.Keys == w.ports.Keys
  {
    if p !in w.sel then w
    else
      var rest := w.(sel := w.sel - {p});
      StandbyAll(rest, Members(rest, w.sel[p].lagID, SELECTED))
  }

  function Unselected(w: World, p: PortID): (r: World)
    requires p in w.ports
    ensures r.ports.Keys == w.ports.Keys
  {
    var w1 := Deselect(w, p);
    SetPort(w1, p, MuxUnselected(w1.ports[p]))
  }

  predicate LagInUse(w: World, lag: LagID)
  {
    exists q :: q in w.sel && w.sel[q].lagID == lag
  }

  predicate KeyInUse(w: World, key: U16)
  {
    exists q :: q in w.sel && w.sel[q].lagID.actorKey == key
  }

  /** `std::map::insert`: an entry that is already there stays as it is. */
  function InsertSelection(w: World, p: PortID, s: Selection): (r: World)
    ensures r.ports.Keys == w.ports.Keys
  {
    if p in w.sel then w else w.(sel := w.sel[p := s])
  }

  function ChooseSelected(w: World, p: PortID, lag: LagID): (r: World)
    requires p in w.ports
    ensures r.ports.Keys == w.ports.Keys
  {
    SelectedAll(InsertSelection(w, p, Selection(lag, SELECTED)), {p})
  }

  function ChooseStandby(w: World, p: PortID, lag: LagID): (r: World)
    requires p in w.ports
    ensures r.ports.Keys == w.ports.Keys
  {
    StandbyAll(InsertSelection(w, p, Selection(lag, STANDBY)), {p})
  }

  /** All STANDBY members of the group are promoted when there are exactly `minLinks` of them. */
  function Promote(w: World, lag: LagID, minLinks: nat): (r: World)
    ensures r.ports.Keys == w.ports.Keys
  {
    var waiting := Members(w, lag, STANDBY);
    if |waiting| == minLinks then SelectedAll(w, waiting) else w
  }

  predicate SelectionStands(w: World, p: PortID)
    requires p in w.ports
  {
    p in w.sel && w.sel[p].lagID == TargetLag(w.ports[p])
  }

  function Select(w: World, p: PortID): (r: World)
    requires p in w.ports
    ensures r.ports.Keys == w.ports.Keys
  {
    var port := w.ports[p];
    var lag := TargetLag(port);
    if SelectionStands(w, p) then w
    else if Individual(port) then ChooseSelected(w, p, lag)
    else if LagInUse(w, lag) || !KeyInUse(w, port.cfg.aggregatePortID) then
      Promote(ChooseStandby(w, p, lag), lag, port.cfg.minLinkCount)
    else w
  }

  // ---------------------------------------------------------------------------
  // Events of the LACP event base
  // ---------------------------------------------------------------------------

  datatype Event =
    | Start(port: PortID)
    | PortUp(port: PortID)
    | PortDown(port: PortID)
    | Received(port: PortID, pdu: LACPDU)
    | ReceiveTimeout(port: PortID)
    | MuxTimerFired(port: PortID)

  datatype Outcome = Running(world: World) | CheckFailed

  /** When the surroundings can deliver an event: a controller is started once and first, the
      operational state alternates, and a timer fires only while it is pending. */
  predicate Enabled(w: World, e: Event)
  {
    && e.port in w.ports
    && var port := w.ports[e.port];
    match e
    case Start(_) => port.rx == INITIALIZED
    case PortUp(_) => port.rx != INITIALIZED && !port.up
    case PortDown(_) => port.rx != INITIALIZED && port.up
    case Received(_, _) => port.rx != INITIALIZED
    case ReceiveTimeout(_) => port.rxTimer
    case MuxTimerFired(_) => port.muxTimer
  }

  function Initialize(w: World, p: PortID): (r: World)
    requires p in w.ports
    ensures r.ports.Keys == w.ports.Keys
  {
    var w1 := Unselected(w, p);
    SetPort(w1, p, FreshlyStarted(w1.ports[p]))
  }

  /** `updateSelected`: a port whose partner has changed gives up its group. */
  function UpdateSelected(w: World, p: PortID, pdu: LACPDU): (r: World)
    requires p in w.ports
    ensures r.ports.Keys == w.ports.Keys
  {
    if PartnerChanged(w.ports[p], pdu) then Unselected(w, p) else w
  }

  /** `ReceiveMachine::current` up to, but not including, the call to the selector. */
  function Recorded(w: World, p: PortID, pdu: LACPDU): (r: World)
    requires p in w.ports
    ensures r.ports.Keys == w.ports.Keys
  {
    var w1 := UpdateSelected(SetPort(w, p, w.ports[p].(rx := CURRENT)), p, pdu);
    SetPort(w1, p, Heard(w1.ports[p], pdu))
  }

  function Current(w: World, p: PortID, pdu: LACPDU): (r: World)
    requires p in w.ports
    ensures r.ports.Keys == w.ports.Keys
  {
    var w1 := Select(Recorded(w, p, pdu), p);
    SetPort(w1, p, w1.ports[p].(rxTimer := true))
  }

  function Defaulted(w: World, p: PortID): (r: World)
    requires p in w.ports
    ensures r.ports.Keys == w.ports.Keys
  {
    var w1 := SetPort(w, p, w.ports[p].(rx := DEFAULTED));
    var w2 := if w1.ports[p].partner != DEFAULT_PARTICIPANT then Unselected(w1, p) else w1;
    SetPort(w2, p, DefaultAssumed(w2.ports[p]))
  }

  function TakenDown(w: World, p: PortID): (r: World)
    requires p in w.ports
    ensures r.ports.Keys == w.ports.Keys
  {
    var w1 := SetPort(w, p, RxDisabled(w.ports[p].(up := false)));
    if p in w1.sel then Unselected(w1, p) else w1
  }

  /** One event. `CheckFailed` is a failed CHECK in `portUp` or the throw in `timeoutExpired`. */
  function Step(w: World, e: Event): Outcome
    requires e.port in w.ports
  {
    var p := e.port;
    var port := w.ports[p];
    match e
    case Start(_) => if port.rx == INITIALIZED then Running(Initialize(w, p)) else CheckFailed
    case PortUp(_) =>
      if port.rx == DISABLED then Running(SetPort(w, p, RxExpired(port.(up := true)))) else CheckFailed
    case PortDown(_) => Running(TakenDown(w, p))
    case Received(_, pdu) => Running(if port.rx == DISABLED then w else Current(w, p, pdu))
    case ReceiveTimeout(_) =>
      var fired := port.(rxTimer := false);
      (match port.rx
       case CURRENT => Running(SetPort(w, p, RxExpired(fired)))
       case EXPIRED => Running(Defaulted(SetPort(w, p, fired), p))
       case _ => CheckFailed)
    case MuxTimerFired(_) => Running(SetPort(w, p, MuxTimeout(port)))
  }

  // ---------------------------------------------------------------------------
  // Runs
  // ---------------------------------------------------------------------------

  predicate Initial(w: World)
  {
    && Closed(w)
    && w.sel == map[]
    && (forall p :: p in w.ports ==> w.ports[p] == NewPort(w.ports[p].cfg, w.ports[p].up))
    && SharedMinLinks(w)
  }

  /** Ports of one aggregate take their minimum link count from that aggregate. */
  predicate SharedMinLinks(w: World)
  {
    forall p, q :: p in w.ports && q in w.ports
                   && w.ports[p].cfg.aggregatePortID == w.ports[q].cfg.aggregatePortID
                   ==> w.ports[p].cfg.minLinkCount == w.ports[q].cfg.minLinkCount
  }

  predicate StepsTo(w: World, e: Event, w': World)
  {
    Enabled(w, e) && Step(w, e) == Running(w')
  }

  ghost predicate IsRun(worlds: seq<World>, events: seq<Event>)
  {
    && |worlds| == |events| + 1
    && Initial(worlds[0])
    && forall i :: 0 <= i < |events| ==> StepsTo(worlds[i], events[i], worlds[i + 1])
  }
}
