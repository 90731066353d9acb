/** Node startup: load the registry and the port allocations, then register every ready
    definition with the supervisor manager, giving each a `PORT` from the port manager.
    Configuration, identity and directory creation are left out; the files found on disk
    and the node id are inputs. */
module Node {
  import opened Wrappers
  import opened Text
  import opened Definitions
  import opened Runtime
  import opened Ports
  import opened Manager
  import Registry

  datatype StartupError =
    | RegistryUnreadable(registryError: Registry.RegistryError)
    | PortsUnreadable(portsError: PortError)
    | PortUnavailable(allocationError: PortError)
    | RegistrationFailed(registrationError: ManagerError)

  datatype Node = Node(
    nodeId: string,
    registry: Registry.RegistryManager,
    manager: SupervisorManager,
    ports: PortManager)

  /** `<data_dir>/services/<id>`, the service's working directory. */
  function ServiceRoot(dataDir: string, id: string): string {
    dataDir + "/services/" + id
  }

  /** The runtime record built for a ready definition that was given `port`. */
  function ServiceFor(def: ServiceDefinition, dataDir: string, port: Port): (s: Service)
    ensures s.id == def.id && s.name == def.name && s.binaryPath == def.binaryPath && s.args == def.args
    ensures s.autoRestart == def.autoRestart && s.restartLimit == def.restartLimit
    ensures s.env == def.env["PORT" := NatToString(port)]
    ensures s.workingDir == ServiceRoot(dataDir, def.id)
    ensures s.state == Stopped && s.pid.None?
  {
    Runtime.New(def.id, def.name, def.binaryPath, def.args, def.env["PORT" := NatToString(port)],
      def.autoRestart, def.restartLimit, ServiceRoot(dataDir, def.id))
  }

  /** One ready definition: allocate its port, then register the service built for it. */
  function RegisterOne(def: ServiceDefinition, dataDir: string, mgr: SupervisorManager, pm: PortManager)
    : (r: Result<(SupervisorManager, PortManager), StartupError>)
    ensures r.Ok? ==>
      && var (mgr', pm') := r.value;
      && def.id !in mgr.services && def.id in pm'.allocations
      && mgr' == mgr.(services := mgr.services[def.id := ServiceFor(def, dataDir, pm'.allocations[def.id])])
      && pm'.allocations.Keys == pm.allocations.Keys + {def.id}
      && (forall k :: k in pm.allocations ==> pm'.allocations[k] == pm.allocations[k])
      && (Injective(pm.allocations) ==> Injective(pm'.allocations))
    ensures r.Err? <==> def.id in mgr.services || (def.id !in pm.allocations && FreePorts(pm) == {})
    ensures def.id !in pm.allocations && FreePorts(pm) == {} ==>
      r == Err(PortUnavailable(NoAvailablePorts(pm.start, pm.end)))
    ensures def.id in mgr.services && (def.id in pm.allocations || FreePorts(pm) != {}) ==>
      r == Err(RegistrationFailed(AlreadyRegistered(def.id)))
    ensures r.Ok? && def.id in pm.allocations ==> r.value.1 == pm
    ensures r.Ok? && def.id !in pm.allocations ==> |FreePorts(r.value.1)| == |FreePorts(pm)| - 1
  {
    AllocateConsumesFreePort(pm, def.id);
    match Allocate(pm, def.id)
    case Err(e) => Err(PortUnavailable(e))
    case Ok((pm', port)) =>
      match RegisterService(mgr, ServiceFor(def, dataDir, port))
      case Err(e) => Err(RegistrationFailed(e))
      case Ok(mgr') => Ok((mgr', pm'))
  }

  /** The registration loop: skip definitions that are not ready; allocate a port and
      register each ready one; the first failure aborts startup. */
  function RegisterReady(defs: seq<ServiceDefinition>, dataDir: string, mgr: SupervisorManager, pm: PortManager)
    : Result<(SupervisorManager, PortManager), StartupError>
    decreases |defs|
  {
    if |defs| == 0 then Ok((mgr, pm))
    else if !defs[0].ready then RegisterReady(defs[1..], dataDir, mgr, pm)
    else
      match RegisterOne(defs[0], dataDir, mgr, pm)
      case Err(e) => Err(e)
      case Ok((mgr', pm')) => RegisterReady(defs[1..], dataDir, mgr', pm')
  }

  /** No registry file, or one at the version the daemon reads. */
  predicate Readable(registryFile: Option<Registry.RegistryFile>) {
    registryFile.None? || registryFile.value.version == Registry.REGISTRY_VERSION
  }

  /** `Node::new`, from the registry and ports files found under `dataDir` (if any). */
  function Start(nodeId: string, dataDir: string, registryFile: Option<Registry.RegistryFile>, portsFile: Option<PortsFile>)
    : (r: Result<Node, StartupError>)
    ensures r.Ok? ==> r.value.manager.services.Keys == ReadyIds(r.value.registry.definitions)
    ensures r.Ok? ==> r.value.manager.running == {} && r.value.manager.ports.None?
    ensures r.Ok? && (portsFile.None? || Injective(portsFile.value.allocations)) ==> DistinctPorts(r.value.manager)
    ensures registryFile.Some? && registryFile.value.version != Registry.REGISTRY_VERSION ==>
      r == Err(RegistryUnreadable(Registry.UnsupportedVersion(registryFile.value.version)))
    ensures Readable(registryFile) && portsFile.Some? && portsFile.value.version != PORTS_VERSION ==>
      r == Err(PortsUnreadable(UnsupportedVersion(portsFile.value.version)))
  {
    match Registry.LoadOrInit(dataDir + "/projects.json", registryFile)
    case Err(e) => Err(RegistryUnreadable(e))
    case Ok(registry) =>
      match LoadOrInit(dataDir + "/ports.json", portsFile)
      case Err(e) => Err(PortsUnreadable(e))
      case Ok(pm) =>
        match RegisterReady(registry.definitions, dataDir, Manager.New(), pm)
        case Err(e) => Err(e)
        case Ok((mgr, pm')) =>
          RegisterReadyKeys(registry.definitions, dataDir, Manager.New(), pm);
          RegisterReadyWired(registry.definitions, dataDir, Manager.New(), pm);
          DistinctPortsFromWiring(mgr, pm', dataDir);
          Ok(Node(nodeId, registry, mgr, pm'))
  }

  /** The ids of the ready definitions. */
  function ReadyIds(defs: seq<ServiceDefinition>): set<string>
    decreases |defs|
  {
    if |defs| == 0 then {}
    else (if defs[0].ready then {defs[0].id} else {}) + ReadyIds(defs[1..])
  }

  /** Every registered service is filed under its own id, holds a port, carries that port
      as `PORT` and runs in its service root. */
  ghost predicate Wired(mgr: SupervisorManager, pm: PortManager, dataDir: string) {
    forall id :: id in mgr.services ==>
      && mgr.services[id].id == id
      && id in pm.allocations
      && "PORT" in mgr.services[id].env
      && mgr.services[id].env["PORT"] == NatToString(pm.allocations[id])
      && mgr.services[id].workingDir == ServiceRoot(dataDir, id)
  }

  /** No two registered services are given the same `PORT`. */
  ghost predicate DistinctPorts(mgr: SupervisorManager) {
    forall a, b :: a in mgr.services && b in mgr.services && a != b ==>
      "PORT" in mgr.services[a].env && "PORT" in mgr.services[b].env
      && mgr.services[a].env["PORT"] != mgr.services[b].env["PORT"]
  }

  /** `s` is the record built from some ready definition of `defs` with `port`. */
  ghost predicate BuiltFrom(defs: seq<ServiceDefinition>, dataDir: string, s: Service, port: Port) {
    exists i :: 0 <= i < |defs| && defs[i].ready && defs[i].id == s.id && s == ServiceFor(defs[i], dataDir, port)
  }

  /** A successful registration loop registers exactly the ready ids, keeps what was
      registered before, only adds allocations, and keeps them injective. */
  lemma {:induction false} RegisterReadyKeys(defs: seq<ServiceDefinition>, dataDir: string, mgr: SupervisorManager, pm: PortManager)
    requires RegisterReady(defs, dataDir, mgr, pm).Ok?
    ensures var (mgr', pm') := RegisterReady(defs, dataDir, mgr, pm).value;
      && mgr'.services.Keys == mgr.services.Keys + ReadyIds(defs)
      && mgr'.running == mgr.running && mgr'.ports == mgr.ports
      && (forall id :: id in mgr.services ==> mgr'.services[id] == mgr.services[id])
      && (forall k :: k in pm.allocations ==> k in pm'.allocations && pm'.allocations[k] == pm.allocations[k])
      && (Injective(pm.allocations) ==> Injective(pm'.allocations))
    decreases |defs|
  {
    if |defs| > 0 {
      if !defs[0].ready {
        assert ReadyIds(defs) == ReadyIds(defs[1..]);
        RegisterReadyKeys(defs[1..], dataDir, mgr, pm);
      } else {
        var (mgr1, pm1) := RegisterOne(defs[0], dataDir, mgr, pm).value;
        assert ReadyIds(defs) == {defs[0].id} + ReadyIds(defs[1..]);
        assert mgr1.services.Keys == mgr.services.Keys + {defs[0].id};
        RegisterReadyKeys(defs[1..], dataDir, mgr1, pm1);
      }
    }
  }

  /** A successful registration loop keeps every registered service wired to its port. */
  lemma {:induction false} RegisterReadyWired(defs: seq<ServiceDefinition>, dataDir: string, mgr: SupervisorManager, pm: PortManager)
    requires Wired(mgr, pm, dataDir)
    requires RegisterReady(defs, dataDir, mgr, pm).Ok?
    ensures var (mgr', pm') := RegisterReady(defs, dataDir, mgr, pm).value;
      Wired(mgr', pm', dataDir)
    decreases |defs|
  {
    if |defs| > 0 {
      if !defs[0].ready {
        RegisterReadyWired(defs[1..], dataDir, mgr, pm);
      } else {
        var (mgr1, pm1) := RegisterOne(defs[0], dataDir, mgr, pm).value;
        assert Wired(mgr1, pm1, dataDir);
        RegisterReadyWired(defs[1..], dataDir, mgr1, pm1);
      }
    }
  }

  /** Every service a successful registration loop adds is the record built from a ready
      definition with the port allocated for it. */
  lemma {:induction false} RegisterReadyBuilt(defs: seq<ServiceDefinition>, dataDir: string, mgr: SupervisorManager, pm: PortManager)
    requires RegisterReady(defs, dataDir, mgr, pm).Ok?
    ensures var (mgr', pm') := RegisterReady(defs, dataDir, mgr, pm).value;
      forall id :: id in mgr'.services && id !in mgr.services ==>
        id in pm'.allocations && BuiltFrom(defs, dataDir, mgr'.services[id], pm'.allocations[id])
    decreases |defs|
  {
    if |defs| > 0 {
      var rest := defs[1..];
      var (mgr', pm') := RegisterReady(defs, dataDir, mgr, pm).value;
      if !defs[0].ready {
        RegisterReadyBuilt(rest, dataDir, mgr, pm);
        forall id | id in mgr'.services && id !in mgr.services
          ensures BuiltFrom(defs, dataDir, mgr'.services[id], pm'.allocations[id])
        {
          BuiltFromRest(defs, dataDir, mgr'.services[id], pm'.allocations[id]);
        }
      } else {
        var (mgr1, pm1) := RegisterOne(defs[0], dataDir, mgr, pm).value;
        RegisterReadyBuilt(rest, dataDir, mgr1, pm1);
        RegisterReadyKeys(rest, dataDir, mgr1, pm1);
        forall id | id in mgr'.services && id !in mgr.services
          ensures id in pm'.allocations && BuiltFrom(defs, dataDir, mgr'.services[id], pm'.allocations[id])
        {
          if id == defs[0].id {
            assert mgr'.services[id] == ServiceFor(defs[0], dataDir, pm'.allocations[id]);
            assert defs[0].ready && defs[0].id == mgr'.services[id].id;
          } else {
            BuiltFromRest(defs, dataDir, mgr'.services[id], pm'.allocations[id]);
          }
        }
      }
    }
  }

  /** A record built from a definition of the tail is built from one of the whole. */
  lemma BuiltFromRest(defs: seq<ServiceDefinition>, dataDir: string, s: Service, port: Port)
    requires |defs| > 0 && BuiltFrom(defs[1..], dataDir, s, port)
    ensures BuiltFrom(defs, dataDir, s, port)
  {
    var k :| 0 <= k < |defs[1..]| && defs[1..][k].ready && defs[1..][k].id == s.id
      && s == ServiceFor(defs[1..][k], dataDir, port);
    assert defs[k + 1] == defs[1..][k];
  }

  /** Injective allocations and intact wiring give every registered service its own `PORT`. */
  lemma DistinctPortsFromWiring(mgr: SupervisorManager, pm: PortManager, dataDir: string)
    requires Wired(mgr, pm, dataDir)
    ensures Injective(pm.allocations) ==> DistinctPorts(mgr)
  {
    forall a, b | a in mgr.services && b in mgr.services && a != b && Injective(pm.allocations)
      ensures mgr.services[a].env["PORT"] != mgr.services[b].env["PORT"]
    {
      NatToStringInjective(pm.allocations[a], pm.allocations[b]);
    }
  }

  /** Once an id is registered, a later ready definition with that id aborts startup. */
  lemma {:induction false} RegisteredIdRepeatedAborts(defs: seq<ServiceDefinition>, dataDir: string, mgr: SupervisorManager, pm: PortManager, id: string, j: nat)
    requires id in mgr.services
    requires j < |defs| && defs[j].ready && defs[j].id == id
    ensures RegisterReady(defs, dataDir, mgr, pm).Err?
    decreases |defs|
  {
    if j > 0 && defs[0].ready {
      match RegisterOne(defs[0], dataDir, mgr, pm)
      case Err(_) =>
      case Ok((mgr1, pm1)) => RegisteredIdRepeatedAborts(defs[1..], dataDir, mgr1, pm1, id, j - 1);
    } else if j > 0 {
      RegisteredIdRepeatedAborts(defs[1..], dataDir, mgr, pm, id, j - 1);
    }
  }

  /** Two ready definitions with one id abort startup. */
  lemma {:induction false} DuplicateReadyIdAborts(defs: seq<ServiceDefinition>, dataDir: string, mgr: SupervisorManager, pm: PortManager, i: nat, j: nat)
    requires i < j < |defs| && defs[i].ready && defs[j].ready && defs[i].id == defs[j].id
    ensures RegisterReady(defs, dataDir, mgr, pm).Err?
    decreases |defs|
  {
    if !defs[0].ready {
      DuplicateReadyIdAborts(defs[1..], dataDir, mgr, pm, i - 1, j - 1);
    } else {
      match RegisterOne(defs[0], dataDir, mgr, pm)
      case Err(_) =>
      case Ok((mgr1, pm1)) =>
        if i == 0 {
          RegisteredIdRepeatedAborts(defs[1..], dataDir, mgr1, pm1, defs[0].id, j - 1);
        } else {
          DuplicateReadyIdAborts(defs[1..], dataDir, mgr1, pm1, i - 1, j - 1);
        }
    }
  }

  /** No two ready definitions share an id. */
  ghost predicate DistinctReadyIds(defs: seq<ServiceDefinition>) {
    forall i, j :: 0 <= i < j < |defs| && defs[i].ready && defs[j].ready ==> defs[i].id != defs[j].id
  }

  /** Every ready id comes from a ready definition. */
  lemma {:induction false} ReadyIdWitness(defs: seq<ServiceDefinition>, id: string) returns (i: nat)
    requires id in ReadyIds(defs)
    ensures i < |defs| && defs[i].ready && defs[i].id == id
    decreases |defs|
  {
    if defs[0].ready && defs[0].id == id {
      i := 0;
    } else {
      var k := ReadyIdWitness(defs[1..], id);
      i := k + 1;
    }
  }

  lemma SubsetCardinality<T>(a: set<T>, b: set<T>)
    requires a <= b
    ensures |a| <= |b|
    decreases a
  {
    if a != {} {
      var x :| x in a;
      SubsetCardinality(a - {x}, b - {x});
    }
  }

  /** Dropping the first definition keeps ready ids distinct and leaves out only its id. */
  lemma TailReadyIds(defs: seq<ServiceDefinition>)
    requires |defs| > 0 && DistinctReadyIds(defs)
    ensures DistinctReadyIds(defs[1..])
    ensures ReadyIds(defs) == (if defs[0].ready then {defs[0].id} else {}) + ReadyIds(defs[1..])
    ensures defs[0].ready ==> defs[0].id !in ReadyIds(defs[1..])
  {
    var tail := defs[1..];
    forall i, j | 0 <= i < j < |tail| && tail[i].ready && tail[j].ready
      ensures tail[i].id != tail[j].id
    {
      assert tail[i] == defs[i + 1] && tail[j] == defs[j + 1];
    }
    if defs[0].ready && defs[0].id in ReadyIds(tail) {
      var k := ReadyIdWitness(tail, defs[0].id);
      assert false;
    }
  }

  /** Registering a ready definition keeps enough free ports for the remaining ready ids. */
  lemma PortBudgetKept(ready: set<string>, rest: set<string>, id: string, pm: PortManager, pm1: PortManager)
    requires ready == {id} + rest && id !in rest
    requires |ready - pm.allocations.Keys| <= |FreePorts(pm)|
    requires id in pm.allocations ==> pm1 == pm
    requires id !in pm.allocations ==>
      pm1.allocations.Keys == pm.allocations.Keys + {id} && |FreePorts(pm1)| == |FreePorts(pm)| - 1
    ensures |rest - pm1.allocations.Keys| <= |FreePorts(pm1)|
  {
    var keys := pm.allocations.Keys;
    if id in keys {
      SubsetCardinality(rest - keys, ready - keys);
    } else {
      assert rest - pm1.allocations.Keys == (ready - keys) - {id};
    }
  }

  /** The registration loop succeeds when the ready ids are distinct, none is registered
      yet, and the range has a free port for every ready id that holds none. */
  lemma {:induction false} RegisterReadySucceeds(defs: seq<ServiceDefinition>, dataDir: string, mgr: SupervisorManager, pm: PortManager)
    requires DistinctReadyIds(defs)
    requires ReadyIds(defs) !! mgr.services.Keys
    requires |ReadyIds(defs) - pm.allocations.Keys| <= |FreePorts(pm)|
    ensures RegisterReady(defs, dataDir, mgr, pm).Ok?
    decreases |defs|
  {
    if |defs| > 0 {
      var d, tail := defs[0], defs[1..];
      TailReadyIds(defs);
      if !d.ready {
        RegisterReadySucceeds(tail, dataDir, mgr, pm);
      } else {
        if d.id !in pm.allocations {
          assert d.id in ReadyIds(defs) - pm.allocations.Keys;
        }
        var (mgr1, pm1) := RegisterOne(d, dataDir, mgr, pm).value;
        PortBudgetKept(ReadyIds(defs), ReadyIds(tail), d.id, pm, pm1);
        RegisterReadySucceeds(tail, dataDir, mgr1, pm1);
      }
    }
  }

  /** Startup succeeds when both files are readable, the ready ids are distinct, and the
      port range can serve every ready id that holds no port yet. */
  lemma StartSucceeds(nodeId: string, dataDir: string, registryFile: Option<Registry.RegistryFile>, portsFile: Option<PortsFile>)
    requires Registry.LoadOrInit(dataDir + "/projects.json", registryFile).Ok?
    requires LoadOrInit(dataDir + "/ports.json", portsFile).Ok?
    requires DistinctReadyIds(Registry.LoadOrInit(dataDir + "/projects.json", registryFile).value.definitions)
    requires var defs := Registry.LoadOrInit(dataDir + "/projects.json", registryFile).value.definitions;
      var pm := LoadOrInit(dataDir + "/ports.json", portsFile).value;
      |ReadyIds(defs) - pm.allocations.Keys| <= |FreePorts(pm)|
    ensures Start(nodeId, dataDir, registryFile, portsFile).Ok?
  {
    var defs := Registry.LoadOrInit(dataDir + "/projects.json", registryFile).value.definitions;
    var pm := LoadOrInit(dataDir + "/ports.json", portsFile).value;
    RegisterReadySucceeds(defs, dataDir, Manager.New(), pm);
  }
}
