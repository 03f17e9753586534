/** The neighbor cache of one VLAN and the switch-state table it programs through queued
    closures. */
module NeighborCache {
  import opened Wrappers
  import opened NeighborEntry

  /** A closure waiting in the switch's update queue. */
  datatype Closure =
    | Program(ip: Address, fields: Fields)
    | ProgramPending(ip: Address, intf: nat, force: bool)
    | SetClass(ip: Address, classID: Option<nat>)
    | Remove(ip: Address)

  type Table = map<Address, Fields>

  /** `NeighborTable::updateEntry`: the state becomes REACHABLE whatever it was. */
  function Updated(f: Fields): Fields
  {
    f.(pending := false)
  }

  /** What one closure does to the table, the VLAN and the subnet being there. */
  function ApplyClosure(c: Closure, t: Table): Table
  {
    match c
    case Program(ip, f) =>
      if ip !in t then t[ip := f.(classID := None)]
      else if FieldsMatch(t[ip], f) && !t[ip].pending then t
      else t[ip := Updated(f)]
    case ProgramPending(ip, intf, force) =>
      if ip in t && !force then t else t[ip := PendingFields(intf)]
    case SetClass(ip, classID) =>
      if ip in t then t[ip := Updated(t[ip].(classID := classID))] else t
    case Remove(ip) => t - {ip}
  }

  /** The table once every queued closure has run. */
  function Drained(t: Table, queue: seq<Closure>): Table
  {
    if queue == [] then t else ApplyClosure(queue[|queue| - 1], Drained(t, queue[..|queue| - 1]))
  }

  /** `damaged` records the addresses whose class was set while they were pending and that were
      not programmed since; `clean` says that this never happened. */
  datatype World = World(
    cache: map<Address, Entry>,
    intf: nat,
    maxProbes: nat,
    table: Table,
    queue: seq<Closure>,
    probes: seq<Probe>,
    damaged: set<Address>,
    clean: bool)

  function Put(w: World, ip: Address, m: Moved): World
  {
    w.(cache := w.cache[ip := m.entry], probes := w.probes + m.probes)
  }

  function Queued(w: World, c: Closure): World
  {
    w.(queue := w.queue + [c])
  }

  /** `setEntryInternal`, apart from its answer. */
  function SetInternal(w: World, ip: Address, f: Fields, s: EntryState, hit: bool, add: bool): World
    requires Enterable(s)
  {
    if ip in w.cache then
      var e := w.cache[ip];
      var kept := if FieldsMatch(e.fields, f) then e else e.(fields := f);
      Put(w, ip, Enter(ip, kept, s, w.maxProbes, hit))
    else if add then Put(w, ip, NewEntry(ip, f, s, w.maxProbes, hit))
    else w
  }

  /** Whether `setEntryInternal` hands back an entry to program. */
  predicate Answers(w: World, ip: Address, f: Fields, add: bool)
  {
    if ip in w.cache then !FieldsMatch(w.cache[ip].fields, f) else add
  }

  function Resolved(w: World, mac: nat, port: nat): Fields
  {
    Fields(mac, port, w.intf, false, None)
  }

  function SetEntry(w: World, ip: Address, mac: nat, port: nat, s: EntryState, hit: bool, add: bool): World
    requires Enterable(s)
  {
    var f := Resolved(w, mac, port);
    var w1 := SetInternal(w, ip, f, s, hit, add);
    if Answers(w, ip, f, add) then Queued(w1, Program(ip, f)).(damaged := w.damaged - {ip}) else w1
  }

  function SetPending(w: World, ip: Address, force: bool): World
  {
    if !force && ip in w.cache then w
    else
      var f := PendingFields(w.intf);
      var w1 := SetInternal(w, ip, f, INCOMPLETE, false, true);
      if Answers(w, ip, f, true) then
        Queued(w1, ProgramPending(ip, w.intf, force)).(damaged := w.damaged - {ip})
      else w1
  }

  function UpdateEntryState(w: World, ip: Address, s: EntryState, hit: bool): World
    requires Enterable(s)
  {
    if ip in w.cache then Put(w, ip, Enter(ip, w.cache[ip], s, w.maxProbes, hit)) else w
  }

  function UpdateClassID(w: World, ip: Address, classID: Option<nat>): World
  {
    if ip !in w.cache then w
    else
      var e := w.cache[ip];
      Queued(w, SetClass(ip, classID)).(
        cache := w.cache[ip := e.(fields := e.fields.(classID := classID))],
        damaged := if e.fields.pending then w.damaged + {ip} else w.damaged,
        clean := w.clean && !e.fields.pending)
  }

  function Flush(w: World, ip: Address): World
  {
    if ip !in w.cache then w
    else Queued(w, Remove(ip)).(cache := w.cache - {ip}, damaged := w.damaged - {ip})
  }

  /** The timer of an entry goes off: the machine runs and an expired entry is flushed. */
  function ProcessEntry(w: World, ip: Address, hit: bool): World
    requires ip in w.cache && Runnable(w.cache[ip].state)
  {
    var w1 := Put(w, ip, Fired(ip, w.cache[ip], hit));
    if w1.cache[ip].state == EXPIRED then Flush(w1, ip) else w1
  }

  /** `receivedNeighborSolicitationMine`. */
  function Solicited(w: World, ip: Address, mac: nat, port: nat, hit: bool): World
  {
    if ip in w.cache && w.cache[ip].fields.mac == mac && w.cache[ip].fields.port == port then w
    else SetEntry(w, ip, mac, port, STALE, hit, true)
  }

  /** `receivedNeighborAdvertisementMine`. */
  function Advertised(w: World, ip: Address, mac: nat, port: nat, override: bool, solicited: bool, hit: bool): World
  {
    if ip !in w.cache || w.cache[ip].fields.pending || override then
      SetEntry(w, ip, mac, port, if solicited then REACHABLE else STALE, hit, true)
    else if solicited then
      var same := w.cache[ip].fields.mac == mac && w.cache[ip].fields.port == port;
      UpdateEntryState(w, ip, if same then REACHABLE else STALE, hit)
    else w
  }

  function OnPort(w: World, port: nat): set<Address>
  {
    set ip | ip in w.cache && w.cache[ip].fields.port == port
  }

  /** `portDown` over the entries in the order of its iteration. */
  function AllPending(w: World, ips: seq<Address>): World
  {
    if ips == [] then w else SetPending(AllPending(w, ips[..|ips| - 1]), ips[|ips| - 1], true)
  }

  /** The operations of the ARP and NDP caches, the entries' timers and the update queue. `hit` is
      the hardware's hit bit wherever it may be read. */
  datatype Event =
    | SentRequest(ip: Address)
    | ArpMine(ip: Address, mac: nat, port: nat)
    | ArpNotMine(ip: Address, mac: nat, port: nat)
    | Solicitation(ip: Address, mac: nat, port: nat, hit: bool)
    | Advertisement(ip: Address, mac: nat, port: nat, override: bool, solicited: bool, hit: bool)
    | ClassID(ip: Address, classID: Option<nat>)
    | PortDown(port: nat, order: seq<Address>)
    | FlushRequest(ip: Address)
    | Timer(ip: Address, hit: bool)
    | SetIntf(intf: nat)
    | SetMaxProbes(maxProbes: nat)
    | RunClosure

  ghost predicate Enabled(w: World, e: Event)
  {
    match e
    case PortDown(port, order) => forall ip :: ip in order <==> ip in OnPort(w, port)
    case Timer(ip, _) => ip in w.cache && w.cache[ip].scheduled
    case RunClosure => w.queue != []
    case _ => true
  }

  datatype Outcome = Running(world: World) | Raised

  function Step(w: World, e: Event): Outcome
    requires Enabled(w, e)
  {
    match e
    case SentRequest(ip) => Running(SetPending(w, ip, false))
    case ArpMine(ip, mac, port) => Running(SetEntry(w, ip, mac, port, REACHABLE, false, true))
    case ArpNotMine(ip, mac, port) => Running(SetEntry(w, ip, mac, port, REACHABLE, false, false))
    case Solicitation(ip, mac, port, hit) => Running(Solicited(w, ip, mac, port, hit))
    case Advertisement(ip, mac, port, override, solicited, hit) =>
      Running(Advertised(w, ip, mac, port, override, solicited, hit))
    case ClassID(ip, classID) => Running(UpdateClassID(w, ip, classID))
    case PortDown(_, order) => Running(AllPending(w, order))
    case FlushRequest(ip) => Running(Flush(w, ip))
    case Timer(ip, hit) => if Runnable(w.cache[ip].state) then Running(ProcessEntry(w, ip, hit)) else Raised
    case SetIntf(intf) => Running(w.(intf := intf))
    case SetMaxProbes(maxProbes) => Running(w.(maxProbes := maxProbes))
    case RunClosure => Running(w.(table := ApplyClosure(w.queue[0], w.table), queue := w.queue[1..]))
  }

  /** `repopulate`: the cache is filled from the table it finds. Probes are logged from then on. */
  function Repopulated(t: Table, intf: nat, maxProbes: nat, hit: Address -> bool): World
  {
    World(
      map ip | ip in t :: NewEntry(ip, t[ip], if t[ip].pending then INCOMPLETE else STALE, maxProbes, hit(ip)).entry,
      intf, maxProbes, t, [], [], {}, true)
  }

  ghost predicate BootsFrom(w: World, hit: Address -> bool)
  {
    w == Repopulated(w.table, w.intf, w.maxProbes, hit)
  }

  ghost predicate StepsTo(w: World, e: Event, w': World)
  {
    Enabled(w, e) && Step(w, e) == Running(w')
  }

  ghost predicate IsRun(worlds: seq<World>, events: seq<Event>)
  {
    && |worlds| == |events| + 1
    && (exists hit :: BootsFrom(worlds[0], hit))
    && forall i | 0 <= i < |events| :: StepsTo(worlds[i], events[i], worlds[i + 1])
  }
}
