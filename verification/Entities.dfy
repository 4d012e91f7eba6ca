/**
  The records the control plane exchanges: agents, their lease-bound states, and
  the settings of a cluster (pkg/entities/agent.go, pkg/entities/cluster.go).
 */
module Entities {

  datatype Option<+T> = None | Some(value: T)

  datatype Result<+T> = Ok(value: T) | Err(error: Failure)

  // Why a request is turned down.
  datatype Failure =
    | MissingField | UnknownCluster | StoreUnreachable | HostnameDiffers | AddressDiffers | AgentDeleted
    | NoCertificate | AgentNotFound | LeaseRefused | PutFailed | DuplicatedTask

  // Four deployable roles, and the pool an agent without any role falls into.
  datatype Slot = ETCD | Master | Minion | HA | Pool

  datatype Roles = Roles(etcd: bool, master: bool, minion: bool, ha: bool) {

    // The collections an agent with these roles belongs to.
    predicate In(slot: Slot) {
      match slot
      case ETCD => etcd
      case Master => master
      case Minion => minion
      case HA => ha
      case Pool => !etcd && !master && !minion && !ha
    }
  }

  datatype AgentState = AgentState(
    lastReportIP: string,
    lastReportTime: real,
    reason: string,
    provisionedETCD: bool,
    provisionedMaster: bool,
    provisionedMinion: bool,
    provisionedHA: bool)
  {
    predicate Provisioned(slot: Slot) {
      match slot
      case ETCD => provisionedETCD
      case Master => provisionedMaster
      case Minion => provisionedMinion
      case HA => provisionedHA
      case Pool => false
    }
  }

  const PHASE_PENDING := 0
  const PHASE_DEPLOYING := 1
  const PHASE_DEPLOYED := 2
  const MAX_AGENT_REPORT_TIMEOUT_SECS := 30.0

  // The state is not part of the stored settings record: it has a key of its own.
  datatype Agent = Agent(
    id: string,
    clusterId: string,
    adminCertificate: string,
    phase: int,
    hostname: string,
    isDelete: bool,
    roles: Roles,
    listenPort: int,
    state: Option<AgentState>)
  {
    predicate IsRunning(now: real) {
      state.Some? && now - state.value.lastReportTime <= MAX_AGENT_REPORT_TIMEOUT_SECS
    }

    predicate HasProvisioned(slot: Slot) {
      state.Some? && state.value.Provisioned(slot)
    }
  }

  datatype HASettings = HASettings(vip: string, routerId: string, nodeCount: int)

  datatype ClusterSettings = ClusterSettings(id: string, name: string, expectedETCDCount: int, ha: Option<HASettings>)
}
