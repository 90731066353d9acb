/** The daemon's port allocator: first-fit allocation of ports from an inclusive range,
    one port per service id. Persisting the allocations to disk is left out. */
module Ports {
  import opened Wrappers

  /** Rust's `u16`. */
  type Port = p: int | 0 <= p < 0x1_0000

  const DEFAULT_PORT_RANGE_START: Port := 8100
  const DEFAULT_PORT_RANGE_END: Port := 8999

  /** The only ports file version the daemon reads. */
  const PORTS_VERSION: nat := 1

  datatype PortsFile = PortsFile(version: nat, start: Port, end: Port, allocations: map<string, Port>)

  datatype PortManager = PortManager(path: string, start: Port, end: Port, allocations: map<string, Port>)

  datatype PortError = UnsupportedVersion(version: nat) | NoAvailablePorts(start: Port, end: Port)

  /** Distinct ids hold distinct ports. */
  ghost predicate Injective(allocations: map<string, Port>) {
    forall a, b :: a in allocations && b in allocations && a != b ==> allocations[a] != allocations[b]
  }

  /** The file written when none exists: the default range and no allocations. */
  function InitialFile(): (f: PortsFile)
    ensures f.version == PORTS_VERSION && f.allocations == map[]
    ensures f.start == 8100 && f.end == 8999
  {
    PortsFile(PORTS_VERSION, DEFAULT_PORT_RANGE_START, DEFAULT_PORT_RANGE_END, map[])
  }

  /** `load`: accept the parsed file only at version 1. */
  function Load(path: string, file: PortsFile): (r: Result<PortManager, PortError>)
    ensures r.Ok? <==> file.version == PORTS_VERSION
    ensures r.Ok? ==> r.value == PortManager(path, file.start, file.end, file.allocations)
    ensures r.Err? ==> r.error == UnsupportedVersion(file.version)
  {
    if file.version != PORTS_VERSION then Err(UnsupportedVersion(file.version))
    else Ok(PortManager(path, file.start, file.end, file.allocations))
  }

  /** `load_or_init`: with no file on disk the initial file is written and loaded. */
  function LoadOrInit(path: string, existing: Option<PortsFile>): (r: Result<PortManager, PortError>)
    ensures existing.None? ==> r == Ok(PortManager(path, 8100, 8999, map[]))
    ensures existing.Some? ==> r == Load(path, existing.value)
  {
    Load(path, existing.GetOr(InitialFile()))
  }

  /** The first port of `lo..=hi` that is not in `used`. */
  function LowestFree(lo: nat, hi: Port, used: set<Port>): (r: Option<Port>)
    ensures r.Some? ==> lo <= r.value <= hi && r.value !in used
    ensures r.Some? ==> forall q :: lo <= q < r.value ==> q in used
    ensures r.None? <==> forall q :: lo <= q <= hi ==> q in used
    decreases hi + 1 - lo
  {
    if lo > hi then None
    else if lo !in used then Some(lo)
    else LowestFree(lo + 1, hi, used)
  }

  /** `allocate(id)`: the port the id already holds, or else the lowest free port of the range. */
  function Allocate(pm: PortManager, id: string): (r: Result<(PortManager, Port), PortError>)
    ensures id in pm.allocations ==> r == Ok((pm, pm.allocations[id]))
    ensures id !in pm.allocations && r.Ok? ==>
      && var (next, port) := r.value;
      && next == pm.(allocations := pm.allocations[id := port])
      && pm.start <= port <= pm.end
      && port !in pm.allocations.Values
      && forall q :: pm.start <= q < port ==> q in pm.allocations.Values
    ensures r.Err? <==> id !in pm.allocations && forall q :: pm.start <= q <= pm.end ==> q in pm.allocations.Values
    ensures r.Err? ==> r.error == NoAvailablePorts(pm.start, pm.end)
    ensures r.Ok? && Injective(pm.allocations) ==> Injective(r.value.0.allocations)
    ensures r.Ok? ==> r.value.0.start == pm.start && r.value.0.end == pm.end
  {
    if id in pm.allocations then Ok((pm, pm.allocations[id]))
    else
      match LowestFree(pm.start, pm.end, pm.allocations.Values)
      case Some(port) => Ok((pm.(allocations := pm.allocations[id := port]), port))
      case None => Err(NoAvailablePorts(pm.start, pm.end))
  }

  /** `deallocate(id)`: forget the id's port, if it has one; never an error. */
  function Deallocate(pm: PortManager, id: string): (r: PortManager)
    ensures id !in r.allocations
    ensures forall other :: other != id ==>
      (other in r.allocations <==> other in pm.allocations)
      && (other in pm.allocations ==> r.allocations[other] == pm.allocations[other])
    ensures id !in pm.allocations ==> r == pm
    ensures Injective(pm.allocations) ==> Injective(r.allocations)
    ensures r.start == pm.start && r.end == pm.end
  {
    pm.(allocations := pm.allocations - {id})
  }

  function GetPort(pm: PortManager, id: string): Option<Port> {
    if id in pm.allocations then Some(pm.allocations[id]) else None
  }

  /** `get_port` reports the port `allocate` handed out. */
  lemma GetPortAfterAllocate(pm: PortManager, id: string)
    requires Allocate(pm, id).Ok?
    ensures GetPort(Allocate(pm, id).value.0, id) == Some(Allocate(pm, id).value.1)
  {
  }

  /** Allocating twice for one id hands out one port. */
  lemma AllocateIdempotent(pm: PortManager, id: string)
    requires Allocate(pm, id).Ok?
    ensures Allocate(Allocate(pm, id).value.0, id) == Ok(Allocate(pm, id).value)
  {
  }

  /** A fresh allocation, then its deallocation, gives back the manager before it. */
  lemma DeallocateUndoesAllocate(pm: PortManager, id: string)
    requires id !in pm.allocations && Allocate(pm, id).Ok?
    ensures Deallocate(Allocate(pm, id).value.0, id) == pm
  {
    var next := Allocate(pm, id).value.0;
    assert next.allocations - {id} == pm.allocations;
  }

  /** The ports of the range no id holds. */
  ghost function FreePorts(pm: PortManager): set<Port> {
    set q: Port | pm.start <= q <= pm.end && q !in pm.allocations.Values
  }

  /** Allocation fails exactly when a new id finds no free port, and a new id's port is
      taken out of the free ones. */
  lemma AllocateConsumesFreePort(pm: PortManager, id: string)
    ensures Allocate(pm, id).Err? <==> id !in pm.allocations && FreePorts(pm) == {}
    ensures Allocate(pm, id).Ok? && id !in pm.allocations ==>
      Allocate(pm, id).value.1 in FreePorts(pm)
      && FreePorts(Allocate(pm, id).value.0) == FreePorts(pm) - {Allocate(pm, id).value.1}
  {
    if id !in pm.allocations {
      if FreePorts(pm) != {} {
        var q :| q in FreePorts(pm);
        assert Allocate(pm, id).Ok?;
      }
      if Allocate(pm, id).Ok? {
        var (next, port) := Allocate(pm, id).value;
        assert next.allocations.Values == pm.allocations.Values + {port} by {
          forall v | v in next.allocations.Values
            ensures v in pm.allocations.Values + {port}
          {
            var k :| k in next.allocations && next.allocations[k] == v;
            if k != id {
              assert pm.allocations[k] == v;
            }
          }
          forall v | v in pm.allocations.Values
            ensures v in next.allocations.Values
          {
            var k :| k in pm.allocations && pm.allocations[k] == v;
            assert next.allocations[k] == v;
          }
          assert next.allocations[id] == port;
        }
        assert port in FreePorts(pm);
      }
    }
  }
}
