/** The portal's view synchroniser: cached runtime statuses, registry and health, the
    derived per-service view, and the polling timer. Timers and in-flight fetches are
    modelled explicitly: the scheduler records every live interval timer, and a
    `refresh()` call is split into its issue (counted) and its completion (an input). */
module ServiceStore {
  import opened Wrappers
  import opened Seqs
  import opened Definitions
  import opened PortalTypes

  /** The period `startPolling` uses when none is given, in milliseconds. */
  const DEFAULT_POLL_MS: nat := 3000

  /** The state shown for a definition that has no runtime status. */
  const DEFAULT_STATE: string := "Stopped"

  type TimerHandle = nat

  datatype Store = Store(
    services: seq<ServiceInfo>,
    registry: seq<ServiceDefinition>,
    health: Option<HealthInfo>,
    loading: bool,
    interval: Option<TimerHandle>)

  /** The browser's timer table (live interval timers and their periods, the handle the
      next `setInterval` returns) and how many `refresh()` calls have been issued. */
  datatype Scheduler = Scheduler(live: map<TimerHandle, nat>, nextHandle: TimerHandle, refreshCalls: nat)

  datatype Page = Page(store: Store, timers: Scheduler)

  /** The answers to the three concurrent fetches of one `refresh()`: all three values,
      or the rejection of whichever failed first. */
  datatype FetchOutcome =
    | Fetched(services: seq<ServiceInfo>, registry: seq<ServiceDefinition>, health: HealthInfo)
    | Rejected(reason: string)

  /** A freshly constructed store. */
  function Init(): (s: Store)
    ensures s.services == [] && s.registry == [] && s.health.None?
    ensures s.loading && s.interval.None?
  {
    Store([], [], None, true, None)
  }

  /** The page at load time: a fresh store and no timers. Browser timer handles are positive. */
  function Boot(): (p: Page)
    ensures p.store == Init() && p.timers.live == map[] && p.timers.refreshCalls == 0
    ensures Valid(p)
  {
    Page(Init(), Scheduler(map[], 1, 0))
  }

  /** Timer handles are positive and never issued twice, and the store's handle is live. */
  ghost predicate Valid(p: Page) {
    && 0 < p.timers.nextHandle
    && (forall h :: h in p.timers.live ==> 0 < h < p.timers.nextHandle)
    && (p.store.interval.Some? ==> p.store.interval.value in p.timers.live)
  }

  /** `services[j]` is the first status whose id is `id`. */
  predicate IsFirstWithId(services: seq<ServiceInfo>, id: string, j: int) {
    && 0 <= j < |services|
    && services[j].id == id
    && forall k :: 0 <= k < j ==> services[k].id != id
  }

  /** The state of the first status whose id is `id`, or "Stopped" when none has it. */
  function StateOf(services: seq<ServiceInfo>, id: string): (st: string)
    ensures (forall j :: 0 <= j < |services| ==> services[j].id != id) ==> st == DEFAULT_STATE
    ensures forall j :: IsFirstWithId(services, id, j) ==> st == services[j].state
  {
    match FirstIndex(services, (s: ServiceInfo) => s.id == id)
    case Some(j) => services[j].state
    case None => DEFAULT_STATE
  }

  /** The left join of definitions with statuses that `merged` computes. */
  function Project(registry: seq<ServiceDefinition>, services: seq<ServiceInfo>): (views: seq<ServiceView>)
    ensures |views| == |registry|
    ensures forall i :: 0 <= i < |registry| ==> views[i].def == registry[i]
    ensures forall i :: 0 <= i < |registry| ==> views[i].state == StateOf(services, registry[i].id)
    ensures forall v :: v in views ==> v.def in registry
  {
    seq(|registry|, i requires 0 <= i < |registry| => ServiceView(registry[i], StateOf(services, registry[i].id)))
  }

  function Merged(s: Store): seq<ServiceView> {
    Project(s.registry, s.services)
  }

  /** The completion of one `refresh()`: all three caches are replaced together, or none is. */
  function Refresh(s: Store, outcome: FetchOutcome): (r: Store)
    ensures !r.loading && r.interval == s.interval
    ensures outcome.Fetched? ==>
      r.services == outcome.services && r.registry == outcome.registry && r.health == Some(outcome.health)
    ensures outcome.Rejected? ==>
      r.services == s.services && r.registry == s.registry && r.health == s.health
  {
    match outcome
    case Fetched(services, registry, health) =>
      s.(services := services, registry := registry, health := Some(health), loading := false)
    case Rejected(_) =>
      s.(loading := false)
  }

  /** `startPolling(ms)`: issue one refresh, then install a new interval timer and keep
      only its handle. A timer installed by an earlier call is not cleared. */
  function StartPolling(p: Page, ms: nat := DEFAULT_POLL_MS): (r: Page)
    ensures r.timers.refreshCalls == p.timers.refreshCalls + 1
    ensures r.store.interval == Some(p.timers.nextHandle)
    ensures r.timers.live == p.timers.live[p.timers.nextHandle := ms]
    ensures r.store.services == p.store.services && r.store.registry == p.store.registry
    ensures r.store.health == p.store.health && r.store.loading == p.store.loading
    ensures Valid(p) ==> Valid(r) && r.store.interval.value !in p.timers.live
    ensures Valid(p) ==> |r.timers.live| == |p.timers.live| + 1
  {
    var h := p.timers.nextHandle;
    Page(p.store.(interval := Some(h)), Scheduler(p.timers.live[h := ms], h + 1, p.timers.refreshCalls + 1))
  }

  /** `stopPolling()`: clear the remembered timer, if any, and forget its handle. */
  function StopPolling(p: Page): (r: Page)
    ensures r.store.interval.None?
    ensures p.store.interval.None? ==> r == p
    ensures p.store.interval.Some? ==> r.timers.live == p.timers.live - {p.store.interval.value}
    ensures r.timers.refreshCalls == p.timers.refreshCalls
    ensures r.store == p.store.(interval := None)
    ensures Valid(p) ==> Valid(r)
  {
    match p.store.interval
    case None => p
    case Some(h) => Page(p.store.(interval := None), p.timers.(live := p.timers.live - {h}))
  }

  /** A live interval timer fires: it issues one more refresh and changes nothing else. */
  function Tick(p: Page, h: TimerHandle): (r: Page)
    requires h in p.timers.live
    ensures r.store == p.store && r.timers.live == p.timers.live
    ensures r.timers.refreshCalls == p.timers.refreshCalls + 1
  {
    p.(timers := p.timers.(refreshCalls := p.timers.refreshCalls + 1))
  }

  /** A refresh issued earlier completes with `outcome`. */
  function Complete(p: Page, outcome: FetchOutcome): (r: Page)
    ensures r.store == Refresh(p.store, outcome) && r.timers == p.timers
    ensures Valid(p) ==> Valid(r)
  {
    p.(store := Refresh(p.store, outcome))
  }

  /** After a failed refresh the derived view is exactly what it was. */
  lemma RejectedRefreshKeepsView(s: Store, reason: string)
    ensures Merged(Refresh(s, Rejected(reason))) == Merged(s)
  {
  }

  /** Stopping twice is stopping once. */
  lemma StopPollingIdempotent(p: Page)
    ensures StopPolling(StopPolling(p)) == StopPolling(p)
  {
  }

  /** Two starts and one stop leave the first start's timer firing, with no handle left to clear it. */
  lemma DoubleStartLeaksTimer(p: Page, first: nat, second: nat)
    requires Valid(p) && p.timers.live == map[]
    ensures var r := StopPolling(StartPolling(StartPolling(p, first), second));
      && r.store.interval.None?
      && r.timers.live == map[p.timers.nextHandle := first]
      && |r.timers.live| == 1
  {
    var h := p.timers.nextHandle;
    var one := StartPolling(p, first);
    var two := StartPolling(one, second);
    assert two.timers.live == map[h := first, h + 1 := second];
    assert two.timers.live - {h + 1} == map[h := first];
  }
}
