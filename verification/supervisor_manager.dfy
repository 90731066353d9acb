/** The daemon's supervisor manager: the registered services by id, the ids with a running
    supervisor, and an optional port manager. Spawning a supervisor task, signalling its
    process and joining it are left out; a running supervisor is represented by its id. */
module Manager {
  import opened Wrappers
  import opened Runtime
  import opened Ports

  datatype SupervisorManager = SupervisorManager(
    services: map<string, Service>,
    running: set<string>,
    ports: Option<PortManager>)

  datatype ManagerError =
    | AlreadyRegistered(id: string)
    | NotRegistered(id: string)
    | AlreadyRunning(id: string)
    | NotFound(id: string)
    | NotRunning(id: string)

  /** The state after an operation that may change state even when it fails, and its error. */
  datatype Reply = Reply(next: SupervisorManager, error: Option<ManagerError>)

  /** `SupervisorManager::new`: nothing registered, nothing running, no port manager. */
  function New(): (m: SupervisorManager)
    ensures m.services == map[] && m.running == {} && m.ports.None?
  {
    SupervisorManager(map[], {}, None)
  }

  /** Gives the id's port back when a port manager is attached; its errors are ignored. */
  function ReleasePort(ports: Option<PortManager>, id: string): (r: Option<PortManager>)
    ensures ports.None? ==> r.None?
    ensures ports.Some? ==> r == Some(Deallocate(ports.value, id))
  {
    match ports
    case None => None
    case Some(pm) => Some(Deallocate(pm, id))
  }

  /** `register_service`: refuse a known id, otherwise insert. */
  function RegisterService(m: SupervisorManager, service: Service): (r: Result<SupervisorManager, ManagerError>)
    ensures r.Err? <==> service.id in m.services
    ensures r.Err? ==> r.error == AlreadyRegistered(service.id)
    ensures r.Ok? ==> r.value == m.(services := m.services[service.id := service])
  {
    if service.id in m.services then Err(AlreadyRegistered(service.id))
    else Ok(m.(services := m.services[service.id := service]))
  }

  /** `unregister_service`: refuse an unknown id, otherwise remove it and release its port.
      A running supervisor for the id is left as it is. */
  function UnregisterService(m: SupervisorManager, id: string): (r: Result<SupervisorManager, ManagerError>)
    ensures r.Err? <==> id !in m.services
    ensures r.Err? ==> r.error == NotRegistered(id)
    ensures r.Ok? ==> r.value.services == m.services - {id} && r.value.running == m.running
    ensures r.Ok? ==> r.value.ports == ReleasePort(m.ports, id)
  {
    if id !in m.services then Err(NotRegistered(id))
    else Ok(SupervisorManager(m.services - {id}, m.running, ReleasePort(m.ports, id)))
  }

  /** `update_service`: replace a registered service's record. */
  function UpdateService(m: SupervisorManager, service: Service): (r: Result<SupervisorManager, ManagerError>)
    ensures r.Err? <==> service.id !in m.services
    ensures r.Err? ==> r.error == NotRegistered(service.id)
    ensures r.Ok? ==> r.value == m.(services := m.services[service.id := service])
    ensures r.Ok? ==> r.value.services.Keys == m.services.Keys
  {
    if service.id !in m.services then Err(NotRegistered(service.id))
    else Ok(m.(services := m.services[service.id := service]))
  }

  function ServiceCount(m: SupervisorManager): nat {
    |m.services|
  }

  function RunningCount(m: SupervisorManager): nat {
    |m.running|
  }

  function ListIds(m: SupervisorManager): set<string> {
    m.services.Keys
  }

  /** `start`: refuse an id already running, then an unregistered one; otherwise the id
      gets a running supervisor. */
  function Start(m: SupervisorManager, id: string): (r: Result<SupervisorManager, ManagerError>)
    ensures r.Err? <==> id in m.running || id !in m.services
    ensures r.Err? && id in m.running ==> r.error == AlreadyRunning(id)
    ensures r.Err? && id !in m.running ==> r.error == NotFound(id)
    ensures r.Ok? ==> r.value == m.(running := m.running + {id}) && id !in m.running
  {
    if id in m.running then Err(AlreadyRunning(id))
    else if id !in m.services then Err(NotFound(id))
    else Ok(m.(running := m.running + {id}))
  }

  /** `stop`: refuse an id with no running supervisor; otherwise remove the supervisor and
      release the port, whether or not the supervisor finished within the join timeout. */
  function Stop(m: SupervisorManager, id: string, joinTimedOut: bool): (r: Result<SupervisorManager, ManagerError>)
    ensures r.Err? <==> id !in m.running
    ensures r.Err? ==> r.error == NotRunning(id)
    ensures r.Ok? ==> r.value.running == m.running - {id} && r.value.services == m.services
    ensures r.Ok? ==> r.value.ports == ReleasePort(m.ports, id)
  {
    if id !in m.running then Err(NotRunning(id))
    else if joinTimedOut then Ok(SupervisorManager(m.services, m.running - {id}, ReleasePort(m.ports, id)))
    else Ok(SupervisorManager(m.services, m.running - {id}, ReleasePort(m.ports, id)))
  }

  /** `restart`: stop the id if it is running, then start it. The stop persists even when
      the start fails. */
  function Restart(m: SupervisorManager, id: string, joinTimedOut: bool): (r: Reply)
    ensures r.error.None? <==> id in m.services
    ensures r.error.Some? ==> r.error.value == NotFound(id) && id !in r.next.running
    ensures r.next.services == m.services
    ensures r.next.running == if id in m.services then m.running + {id} else m.running - {id}
    ensures id in m.running ==> r.next.ports == ReleasePort(m.ports, id)
    ensures id !in m.running ==> r.next.ports == m.ports
  {
    var stopped := if id in m.running then Stop(m, id, joinTimedOut).value else m;
    match Start(stopped, id)
    case Ok(started) => Reply(started, None)
    case Err(e) => Reply(stopped, Some(e))
  }

  /** `shutdown_all`: every supervisor is told to stop and dropped. */
  function ShutdownAll(m: SupervisorManager): (r: SupervisorManager)
    ensures r.running == {} && RunningCount(r) == 0
    ensures r.services == m.services && r.ports == m.ports
  {
    m.(running := {})
  }

  /** `start_all`: try to start every registered id, ignoring the failures of ids already running. */
  method StartAll(m: SupervisorManager) returns (r: SupervisorManager)
    ensures r.running == m.running + m.services.Keys
    ensures r.services == m.services && r.ports == m.ports
  {
    var pending := m.services.Keys;
    r := m;
    while pending != {}
      invariant pending <= m.services.Keys
      invariant r.services == m.services && r.ports == m.ports
      invariant r.running == m.running + (m.services.Keys - pending)
      decreases pending
    {
      var id :| id in pending;
      var attempt := Start(r, id);
      if attempt.Ok? {
        r := attempt.value;
      }
      pending := pending - {id};
    }
  }

  /** The counts move by one with each successful registration change or start/stop. */
  lemma CountsTrackTransitions(m: SupervisorManager, service: Service, id: string, joinTimedOut: bool)
    ensures RegisterService(m, service).Ok? ==> ServiceCount(RegisterService(m, service).value) == ServiceCount(m) + 1
    ensures UnregisterService(m, id).Ok? ==> ServiceCount(UnregisterService(m, id).value) == ServiceCount(m) - 1
    ensures Start(m, id).Ok? ==> RunningCount(Start(m, id).value) == RunningCount(m) + 1
    ensures Stop(m, id, joinTimedOut).Ok? ==> RunningCount(Stop(m, id, joinTimedOut).value) == RunningCount(m) - 1
  {
  }

  /** Starting a stopped registered service and then stopping it gives back the manager
      before the start when no port manager is attached. */
  lemma StopUndoesStart(m: SupervisorManager, id: string, joinTimedOut: bool)
    requires Start(m, id).Ok? && m.ports.None?
    ensures Stop(Start(m, id).value, id, joinTimedOut) == Ok(m)
  {
    assert m.running + {id} - {id} == m.running;
  }
}
