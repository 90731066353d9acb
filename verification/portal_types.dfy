/** The records the portal receives from the daemon and the view it derives. */
module PortalTypes {
  import opened Definitions

  /** A runtime status as `GET /services` reports it. */
  datatype ServiceInfo = ServiceInfo(id: string, name: string, state: string, ready: bool)

  datatype SystemStats = SystemStats(
    cpuUsage: real,
    memoryUsed: nat,
    memoryTotal: nat,
    diskUsed: nat,
    diskTotal: nat,
    uptime: nat)

  /** The process-wide snapshot `GET /health` reports. */
  datatype HealthInfo = HealthInfo(name: string, status: string, nodeId: string, stats: SystemStats)

  /** A definition joined with the lifecycle state to show for it. */
  datatype ServiceView = ServiceView(def: ServiceDefinition, state: string)
}
