# Dockless core, modelled in Dafny

Dockless is a single-node service runner. A Rust daemon keeps a registry of service
definitions in `projects.json` and the port allocations in `ports.json`. At startup it
registers every ready definition with a supervisor manager and gives each one a `PORT`.
It then supervises each service's child process under a restart policy, keeps the last
1000 log lines per service, and serves a JSON API plus an embedded web portal. The
portal (TypeScript/Svelte) polls that API into a store, and shows toasts that dismiss
themselves.

This project models that core as immutable Dafny datatypes and pure transition
functions, one module per source file:

| module | models |
|---|---|
| `Definitions` | the registry's service definition and its serde defaults |
| `Registry` | `RegistryManager` (load, add, update, get, remove) |
| `Ports` | `PortManager` (first-fit allocation in 8100..=8999) |
| `Logs` | `LogBuffer` (bounded to `MAX_LOG_LINES` = 1000) |
| `Runtime` | `Service` and `ServiceState` |
| `Supervisor` | one step of `run_supervised`'s restart loop, and runs of it |
| `Manager` | `SupervisorManager`'s bookkeeping of registered and running services |
| `Node` | `Node::new`'s registration loop |
| `Console` | `serve_console`'s asset fallback chain and `api_fallback` |
| `Api` | the portal's `request` helper, its URLs and its error-message choice |
| `ServiceStore` | the portal's polling store (`merged`, `refresh`, `startPolling`, `stopPolling`) |
| `Toasts` | the portal's toast store |
| `Text`, `Seqs`, `Paths`, `Wrappers` | integer printing, `find`/`filter`, Unix `PathBuf::join`, `Option`/`Result` |

How effects become values:

- Files read from disk are `Option<…File>` parameters. `None` means the file does not
  exist. Writing files is left out.
- The clock is a timestamp parameter.
- Spawning and waiting on a child are input events (`LaunchResult`, `WatchEvent`).
- `fetch` is a function from URL to reply.
- Browser timers are a map from handle to period. Every refresh that is issued
  increments a counter. A pending toast timer is an element of a multiset.
- `tokio` tasks and locks are not modelled. A running supervisor is an id in a set.

Behaviour of the code worth knowing:

- `startPolling` is not idempotent. Calling it twice leaves the first interval running,
  and `stopPolling` can no longer reach it (`ServiceStore.DoubleStartLeaksTimer`).
- `RegistryManager::update` does not check that the new definition keeps the id
  (`Registry.UpdateCanDuplicateIds`).
- `load` does not check that ids are unique.
- `SupervisorManager.port_manager` is set to `None` by `new` and by nothing else. So the
  deallocations in `unregister_service` and `stop` never take effect. The model keeps the
  field as an `Option` and proves what happens in both cases.
- `Service::new` passes the log file path to `LogBuffer::new`
  (src/runtime/service.rs:57), but `LogBuffer::new` takes no argument
  (src/runtime/log_buffer.rs:21). The model keeps the path as a field of the service
  record and keeps the buffer in memory.

## Model

| member | source | states |
|---|---|---|
| Definitions.Decode | src/registry/mod.rs:12-44 | a definition read from JSON keeps id and name, and copies path, arguments, environment, `ready` and `auto_restart` when present; a missing `ready` is false, a missing path, argument list or environment is empty, a missing `auto_restart` is true; the port is never read |
| Definitions.Encode | src/registry/mod.rs:12-44 | decoding what was written gives back the definition with its port dropped (the field is `#[serde(skip)]`) |
| Registry.InitialFile | src/registry/mod.rs:53-57 | a fresh registry file has version 1 and no services |
| Registry.Load | src/registry/mod.rs:68-83 | loading succeeds exactly when the version is 1, and then holds the file's definitions in order; any other version is reported as unsupported |
| Registry.LoadOrInit | src/registry/mod.rs:52-67 | a missing file yields an empty registry at that path; an existing one is loaded |
| Registry.Add | src/registry/mod.rs:93-100 | add fails exactly when the id is already present, reporting id and port; otherwise it appends and keeps ids unique |
| Registry.Update | src/registry/mod.rs:102-109 | update fails exactly when the id is absent; otherwise it replaces the first definition with that id and nothing else |
| Registry.Get | src/registry/mod.rs:111-113 | get is `None` exactly when the id is absent, and otherwise returns the first definition with that id |
| Registry.Remove | src/registry/mod.rs:115-124 | remove fails exactly when the id is absent; otherwise it drops every definition with that id and keeps all the others in their order, once per occurrence, so the list gets shorter |
| Registry.UpdateKeepsIdsUnique | src/registry/mod.rs:102-109 | with unique ids, an update that keeps the id keeps ids unique |
| Registry.UpdateCanDuplicateIds | src/registry/mod.rs:102-109 | an update whose new definition carries another stored id produces two definitions with that id |
| Registry.GetWithUniqueIds | src/registry/mod.rs:111-113 | with unique ids, get returns `d` exactly when `d` is stored under that id |
| Registry.GetAfterAdd | src/registry/mod.rs:93-113 | a definition just added is what get returns for its id |
| Registry.RemoveUndoesAdd | src/registry/mod.rs:93-124 | removing the id just added restores the registry exactly |
| Ports.InitialFile | src/platform/port_manager.rs:5-6 | a fresh ports file has version 1, the range 8100..=8999 and no allocations |
| Ports.Load | src/platform/port_manager.rs:43-60 | loading succeeds exactly when the version is 1, and then holds the file's range and allocations |
| Ports.LoadOrInit | src/platform/port_manager.rs:24-41 | a missing file yields an empty manager over 8100..=8999; an existing one is loaded |
| Ports.LowestFree | src/platform/port_manager.rs:70-76 | the scan returns the lowest unused port in the range, and finds none exactly when every port in the range is used |
| Ports.Allocate | src/platform/port_manager.rs:62-83 | an id that already has a port gets it back unchanged; a new id gets the lowest free port in the range; allocation fails exactly when the id is new and the range is full; allocations stay injective |
| Ports.Deallocate | src/platform/port_manager.rs:85-92 | the id loses its port, every other allocation is kept, an unknown id changes nothing, and injectivity is kept |
| Ports.GetPortAfterAllocate | src/platform/port_manager.rs:62-96 | after an allocation, `get_port` reports the port allocate returned |
| Ports.AllocateIdempotent | src/platform/port_manager.rs:62-65 | allocating the same id twice gives the same port and state as once |
| Ports.AllocateConsumesFreePort | src/platform/port_manager.rs:62-83 | allocation fails exactly when the id is new and no port in the range is free; a new id gets a free port, which stops being free, and no other port changes |
| Ports.DeallocateUndoesAllocate | src/platform/port_manager.rs:62-92 | deallocating a fresh allocation restores the manager exactly |
| Logs.New | src/runtime/log_buffer.rs:21-25 | a new buffer is empty |
| Logs.Window | src/runtime/log_buffer.rs:6 | the retained window never exceeds 1000 lines |
| Logs.Push | src/runtime/log_buffer.rs:27-39 | a push appends the entry; it grows the buffer by one below 1000 lines and drops the oldest at 1000; the buffer keeps the most recent lines |
| Logs.Clear | src/runtime/log_buffer.rs:45-47 | a cleared buffer is empty |
| Logs.WindowOfWindow | src/runtime/log_buffer.rs:27-39 | trimming early and trimming late keep the same lines |
| Logs.HoldsMostRecent | src/runtime/log_buffer.rs:27-43 | after any sequence of pushes, `get_all` returns the last 1000 lines pushed (with the earlier contents), oldest first |
| Runtime.New | src/runtime/service.rs:36-60 | a new service copies its configuration, starts `Stopped` with no pid and no logs, and records its log file as `<working_dir>/logs/service.log` |
| Runtime.LogFileUnderWorkingDir | src/runtime/service.rs:46 | joining `logs` and then `service.log` is one join of `logs/service.log`: `<working_dir>/logs/service.log`, with no extra `/` when the directory already ends in one |
| Runtime.SetState | src/runtime/service.rs:62-69 | the state read back is the state set; pid, logs and configuration are untouched |
| Runtime.SetPid | src/runtime/service.rs:71-78 | the pid read back is the pid set; state, logs and configuration are untouched |
| Paths.JoinTwice | src/runtime/service.rs:46 | joining two relative components one after the other equals joining them once with a `/` between |
| Supervisor.Begin | src/runtime/supervisor.rs:61 | supervision starts with a zero restart count, about to launch |
| Supervisor.Launch | src/runtime/supervisor.rs:67-144 | a launch writes `Starting`, then `Running` with the reported pid when the child spawns, or `Failed` with an error log line and an error result when the binary is missing or will not spawn |
| Supervisor.AfterExit | src/runtime/supervisor.rs:196-213 | an exit writes `Stopped` and resets the count on success, writes `Crashed` and increments it on failure; the loop ends without auto-restart, ends with `Failed` once the count reaches the limit, and relaunches otherwise |
| Supervisor.ShutDown | src/runtime/supervisor.rs:158-182 | a shutdown signal writes `Stopping` then `Stopped`, clears the pid and ends the loop |
| Supervisor.Watch | src/runtime/supervisor.rs:157-218 | the watching step with the queued-shutdown exit corrected: shutdown signals stop the service, a wait error ends with an error, an exit with no shutdown queued clears the pid and follows the restart policy exactly as `AfterExit` states, and an exit with a shutdown queued leaves the service `Stopped` |
| Supervisor.RunInvariants | src/runtime/supervisor.rs:55-223 | with the corrected step, over any sequence of events, a non-zero consecutive-crash count stays below the restart limit while the loop runs, a loop that returns normally leaves the service at rest (a wait error is the exception, see `WaitErrorLeavesRunning`), and the configuration never changes |
| Supervisor.RunAsWrittenInvariants | src/runtime/supervisor.rs:55-223 | with the step as written, a non-zero consecutive-crash count still stays below the restart limit while the loop runs, and the configuration never changes; being at rest at the end is not claimed (see Findings) |
| Supervisor.BeginInvariants | src/runtime/supervisor.rs:61 | a fresh supervision satisfies the loop invariants |
| Supervisor.WatchAsWritten | src/runtime/supervisor.rs:184-217 | the step as written: an exit with a shutdown queued ends the loop without writing any state |
| Supervisor.WaitErrorLeavesRunning | src/runtime/supervisor.rs:184-185 | with either step, a failed wait ends the loop in error with the service still `Running` and its pid kept, which `AtRest` does not cover |
| Supervisor.QueuedShutdownLeavesRunning | src/runtime/supervisor.rs:192-195 | with the step as written, that exit leaves the finished service reporting `Running` |
| Manager.New | src/runtime/supervisor_manager.rs:21-29 | a new manager has no services, nothing running and no port manager |
| Manager.ReleasePort | src/runtime/supervisor_manager.rs:44-46 | a port is released only when a port manager is attached |
| Manager.RegisterService | src/runtime/supervisor_manager.rs:31-38 | registering fails exactly when the id is taken; otherwise the service is filed under its id |
| Manager.UnregisterService | src/runtime/supervisor_manager.rs:40-48 | unregistering fails exactly when the id is unknown; otherwise the service is dropped, its port released, and a running supervisor left alone |
| Manager.UpdateService | src/runtime/supervisor_manager.rs:50-56 | updating fails exactly when the id is unknown; otherwise only that record changes |
| Manager.Start | src/runtime/supervisor_manager.rs:66-102 | starting fails when already running (checked first) or when unknown; otherwise the id becomes running |
| Manager.Stop | src/runtime/supervisor_manager.rs:104-148 | stopping fails exactly when not running; otherwise the id stops running and its port is released, whether or not the join timed out |
| Manager.Restart | src/runtime/supervisor_manager.rs:150-155 | restart stops a running service first, then starts it; it fails only for an unknown id, which afterwards is not running |
| Manager.ShutdownAll | src/runtime/supervisor_manager.rs:188-203 | after shutdown nothing is running and the services are kept |
| Manager.StartAll | src/runtime/supervisor_manager.rs:176-186 | after start-all, every registered service is running, and failures to start do not stop the loop |
| Manager.CountsTrackTransitions | src/runtime/supervisor_manager.rs:31-148 | each successful register, unregister, start and stop moves `service_count` or `running_count` by exactly one |
| Manager.StopUndoesStart | src/runtime/supervisor_manager.rs:66-148 | with no port manager, stopping what was just started restores the manager |
| Node.ServiceFor | src/platform/node.rs:43-70 | the service built for a definition copies it, adds `PORT` as the decimal port and runs in `<data_dir>/services/<id>` |
| Node.RegisterOne | src/platform/node.rs:55-72 | one iteration allocates a port for the id and registers exactly the service built with it; it fails exactly when the id is already registered (`AlreadyRegistered`) or is new while no port in the range is free (`NoAvailablePorts`, checked first); a new id uses up one free port, a known one none |
| Node.Start | src/platform/node.rs:27-73 | a successful startup registers exactly the ready definitions' ids, nothing is running, and with injective stored allocations no two services get the same `PORT`; a registry or ports file at another version aborts with that version reported |
| Node.RegisterReadySucceeds | src/platform/node.rs:37-73 | the loop succeeds when the ready ids are distinct, none is registered yet, and enough ports are free for those without one |
| Node.StartSucceeds | src/platform/node.rs:27-73 | startup succeeds when both files are readable, the ready ids are distinct and enough ports are free for them |
| Node.RegisterReadyKeys | src/platform/node.rs:37-73 | the loop registers exactly the ready ids, keeps earlier registrations and allocations, and keeps allocations injective |
| Node.RegisterReadyWired | src/platform/node.rs:55-72 | every registered service stays filed under its id with its allocated port as `PORT` |
| Node.RegisterReadyBuilt | src/platform/node.rs:37-73 | every service the loop adds is the one built from a ready definition with its allocated port |
| Node.DistinctPortsFromWiring | src/platform/node.rs:58-59 | injective allocations give distinct `PORT` values |
| Node.RegisteredIdRepeatedAborts | src/platform/node.rs:72 | a ready definition whose id is already registered aborts startup |
| Node.DuplicateReadyIdAborts | src/platform/node.rs:37-73 | two ready definitions with one id abort startup |
| Text.NatToString | src/platform/node.rs:59 | a port prints as a non-empty run of decimal digits with no leading zero |
| Text.ParseAfterRender | src/platform/node.rs:59 | the printed decimal reads back as the number printed |
| Text.NatToStringInjective | src/platform/node.rs:59 | distinct ports print differently |
| Console.TrimLeadingSlashes | src/api/server.rs:73 | the trimmed path is a suffix of the request path that does not start with `/`, and only slashes were removed |
| Console.ServePath | src/api/server.rs:72-127 | the exact asset is served first, then `<path>.html` for a dot-free path, then `<path>/index.html`, then `index.html`; otherwise 404; whatever is served exists |
| Console.ChainIsFirstAvailable | src/api/server.rs:75-120 | the resolution chain serves the first candidate name (exact, `.html`, `/index.html`, then `index.html`) that is an asset |
| Console.FirstAvailableNone | src/api/server.rs:113-126 | no candidate is served, giving the 404 reply, exactly when none of them is an asset |
| Console.ServesFirstCandidate | src/api/server.rs:72-127 | `serve_console` on any request path gives 404 exactly when no candidate for the trimmed path exists |
| Console.ApiFallback | src/api/server.rs:62-70 | an unknown API route gets a 404 whose JSON `error` is `Not found: <path>` |
| Console.UnknownRouteSurfacesInPortal | src/api/server.rs:62-70 | the portal's `request` reports that reply as an error with status 404 and message `Not found: <path>` |
| Api.RequestUrl | portal/src/lib/api.ts:12-14 | a request URL is `BASE` followed by the path, which can be read back |
| Api.LogStreamUrl | portal/src/lib/api.ts:170-172 | the log stream URL is `BASE/services/<id>/logs/stream`, and the id can be sliced back out |
| Api.Request | portal/src/lib/api.ts:13-23 | a request succeeds exactly when the daemon answers 2xx with a JSON body, and returns that body; a body that is not JSON fails first; a network failure is rethrown as it came; a non-2xx `null` body fails on the property access; any other non-2xx reply is thrown with its status and the chosen message (a truthy `error`, else a truthy `message`, else `Request failed: <status>`) |
| Api.ErrorFieldSurfaces | portal/src/lib/api.ts:17-19 | any non-2xx JSON object whose `error` is a non-empty string surfaces that string, whatever else it holds |
| Api.MessageFieldSurfaces | portal/src/lib/api.ts:17-19 | with a falsy `error`, a non-empty `message` string surfaces instead |
| Api.BareFailureReportsStatus | portal/src/lib/api.ts:17-19 | any non-2xx JSON object with neither field truthy reports `Request failed: <status>` |
| ServiceStore.Init | portal/src/lib/services.svelte.ts:10-14 | the store starts empty, loading, with no interval |
| ServiceStore.StateOf | portal/src/lib/services.svelte.ts:18-19 | a definition's state is that of the first service with its id, or `Stopped` when none has it |
| ServiceStore.Project | portal/src/lib/services.svelte.ts:16-21 | `merged` has one view per definition, in registry order, each with that definition's state |
| ServiceStore.Refresh | portal/src/lib/services.svelte.ts:23-38 | a refresh always clears `loading`; a fetch that resolves replaces all three fields, and one that rejects keeps them |
| ServiceStore.StartPolling | portal/src/lib/services.svelte.ts:40-43 | starting issues one refresh and adds a new live timer with the given period (3000 ms by default), overwriting the stored handle |
| ServiceStore.StopPolling | portal/src/lib/services.svelte.ts:45-50 | stopping clears only the stored timer and forgets the handle; with no handle it changes nothing |
| ServiceStore.Tick | portal/src/lib/services.svelte.ts:42 | each tick of a live timer issues one refresh |
| ServiceStore.Complete | portal/src/lib/services.svelte.ts:23-38 | a refresh that completes updates the store and keeps the store's timer invariant |
| ServiceStore.RejectedRefreshKeepsView | portal/src/lib/services.svelte.ts:34-37 | a failed refresh leaves `merged` unchanged |
| ServiceStore.StopPollingIdempotent | portal/src/lib/services.svelte.ts:45-50 | stopping twice is the same as stopping once |
| ServiceStore.DoubleStartLeaksTimer | portal/src/lib/services.svelte.ts:40-50 | after two starts and a stop, the first interval is still live and no handle refers to it |
| Toasts.Init | portal/src/lib/toasts.svelte.ts:8-9 | the toast store starts empty with id 0 |
| Toasts.Add | portal/src/lib/toasts.svelte.ts:11-15 | adding appends a toast with the next id (success by default), keeps the rest, and schedules its removal |
| Toasts.Remove | portal/src/lib/toasts.svelte.ts:17-19 | removing keeps exactly the toasts with other ids, in order; an absent id changes nothing |
| Toasts.Fire | portal/src/lib/toasts.svelte.ts:14 | a removal timer that fires removes its toast and is used up |
| Toasts.RemoveIdempotent | portal/src/lib/toasts.svelte.ts:17-19 | removing twice is the same as removing once |
| Toasts.LateTimerHarmless | portal/src/lib/toasts.svelte.ts:14-19 | a timer that fires after its toast was dismissed changes no toast |
| Toasts.RemoveUndoesAdd | portal/src/lib/toasts.svelte.ts:11-19 | removing the toast just added restores the list |
| Toasts.IdsNeverReused | portal/src/lib/toasts.svelte.ts:9-12 | over any sequence of adds, removes and timer firings, ids are issued in strictly increasing order and never reused |
| Seqs.FirstIndex | src/registry/mod.rs:103 | the index found is the first match, and none is found exactly when nothing matches |
| Seqs.Filter | src/registry/mod.rs:117 | the kept elements are exactly the matching ones, and nothing is dropped exactly when all match |
| Seqs.FilterKeepsOrder | src/registry/mod.rs:117 | the kept elements are the matching positions of the input, each once, in increasing order |

## Left out

- Writing `projects.json` and `ports.json` (`save`, the temporary file, the rename) and its failures. Allocation is modelled as always saving successfully.
- JSON parse errors when loading. A file that exists is given already parsed.
- Configuration loading, node identity and directory creation in `Node::new`. The node id and the files found are inputs.
- Processes, signals (`SIGTERM`, `SIGKILL`), sleeps, timeouts and `tokio` tasks. `Manager.Stop` takes the join timeout as a flag that changes nothing, as in the source.
- The stdout/stderr reader tasks in `run_supervised`. Their lines would be `Logs.Push` calls at `info` and `error` level.
- `graceful_stop`'s SIGTERM-then-SIGKILL sequence. The shutdown step only records its effect on state and pid.
- `list`, `list_cloned`, `list_definitions_mut` and `all_allocations`. These are accessors with no logic.
- MIME type guessing in `serve_console`. The model records only whether the type is guessed or fixed to `text/html`.
- The API handlers in `src/api/routes`, the health endpoint and the router setup.
- The per-endpoint wrappers in `api.ts` beyond `request` and `streamLogs`, and the `EventSource` connection itself.
- JSON numbers that are not integers, and the `Promise.all` concurrency in `refresh`. A refresh sees one combined outcome.
- The older copies under `src/` (`src/supervisor.rs`, `src/node.rs` and the like), which the daemon no longer uses.
- Supervisor.RunInvariants: `restart_count` is a Rust `u32`; the model counts with an unbounded `nat` and does not model overflow, which would need 2^32 consecutive crashes.
- Shared service state. In the source, a service's state, pid and log buffer sit behind `Arc<RwLock<…>>` (src/runtime/service.rs:30-32, src/runtime/log_buffer.rs:15-18); the supervisor task writes them and the manager reads them (src/runtime/supervisor_manager.rs:71-86, and `stop` reads the pid at line 110). The model keeps `Manager.services` and the supervision's own `Service` record as independent values, so it does not show the manager seeing the supervisor's writes, including the log lines `Launch` adds. The Findings row's "reporting `Running`" is the state that this sharing would expose to `list`.
- Runtime.New: the log file is a field of the service record, because `LogBuffer::new` in the source takes no path (see above).

## Findings

| source | as written | input that shows it | evidently intended | confidence | as-written member | corrected member |
|---|---|---|---|---|---|---|
| src/runtime/supervisor.rs:192-195 | when the child exits while a shutdown signal is already queued, the loop breaks before setting any state, so the supervisor finishes with the service still reporting `Running` | a running service whose child exits successfully in the same instant as `stop` sends its shutdown message | the service is left `Stopped`, as the two shutdown branches leave it | not executed | Supervisor.WatchAsWritten, Supervisor.QueuedShutdownLeavesRunning | Supervisor.Watch, Supervisor.RunInvariants |
