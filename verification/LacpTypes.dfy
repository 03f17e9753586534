/** Values exchanged and stored by LACP: state octets, participant information and
    the identifier of a link aggregation group. */
module LacpTypes {
  import opened Wrappers

  type U16 = x: int | 0 <= x < 0x1_0000

  /** Port number 0 stands for "no port". */
  type PortID = x: int | 0 < x < 0x1_0000 witness 1

  type SystemID = s: seq<Byte> | |s| == 6 witness [0, 0, 0, 0, 0, 0]

  /** The eight flags of an actor or partner state octet, least significant first. */
  datatype LacpState = LacpState(
    active: bool,
    shortTimeout: bool,
    aggregatable: bool,
    inSync: bool,
    collecting: bool,
    distributing: bool,
    defaulted: bool,
    expired: bool)

  const NO_FLAGS := LacpState(false, false, false, false, false, false, false, false)

  datatype ParticipantInfo = ParticipantInfo(
    systemPriority: U16,
    systemID: SystemID,
    key: U16,
    portPriority: U16,
    port: U16,
    state: LacpState)

  const DEFAULT_PARTICIPANT := ParticipantInfo(0, [0, 0, 0, 0, 0, 0], 0, 0, 0, NO_FLAGS)

  datatype LagID = LagID(
    actorSystemID: SystemID,
    actorSystemPriority: U16,
    actorKey: U16,
    actorPort: U16,
    actorPortPriority: U16,
    partnerSystemID: SystemID,
    partnerSystemPriority: U16,
    partnerKey: U16,
    partnerPort: U16,
    partnerPortPriority: U16)

  /** The group a link belongs to; a side's port only counts when that side is individual. */
  function LagFrom(actor: ParticipantInfo, partner: ParticipantInfo): LagID
  {
    LagID(
      actor.systemID, actor.systemPriority, actor.key,
      if actor.state.aggregatable then 0 else actor.port,
      if actor.state.aggregatable then 0 else actor.portPriority,
      partner.systemID, partner.systemPriority, partner.key,
      if partner.state.aggregatable then 0 else partner.port,
      if partner.state.aggregatable then 0 else partner.portPriority)
  }

  /** Same system, key and port: everything `ReceiveMachine` compares apart from state flags. */
  predicate SameParticipant(a: ParticipantInfo, b: ParticipantInfo)
  {
    && a.systemID == b.systemID
    && a.systemPriority == b.systemPriority
    && a.key == b.key
    && a.portPriority == b.portPriority
    && a.port == b.port
  }

  /** Whether an individual participant can be told apart from an aggregatable one inside a
      group identifier, where the port and priority of an aggregatable side are zero. */
  predicate Distinguishable(info: ParticipantInfo)
  {
    info.state.aggregatable || info.port != 0 || info.portPriority != 0
  }
}
