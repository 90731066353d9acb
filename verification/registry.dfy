/** The daemon's registry of service definitions: an ordered list held in memory and
    loaded from a versioned file. File reads and writes are left out; a loaded file is an input. */
module Registry {
  import opened Wrappers
  import opened Seqs
  import opened Definitions

  /** The only registry file version the daemon reads. */
  const REGISTRY_VERSION: nat := 1

  datatype RegistryFile = RegistryFile(version: nat, services: seq<ServiceDefinition>)

  datatype RegistryManager = RegistryManager(path: string, definitions: seq<ServiceDefinition>)

  datatype RegistryError =
    | UnsupportedVersion(version: nat)
    | AlreadyExists(id: string, port: Option<nat>)
    | NotFound(id: string)

  /** No two definitions share an id. */
  ghost predicate UniqueIds(defs: seq<ServiceDefinition>) {
    forall i, j :: 0 <= i < |defs| && 0 <= j < |defs| && defs[i].id == defs[j].id ==> i == j
  }

  predicate HasId(defs: seq<ServiceDefinition>, id: string) {
    exists d :: d in defs && d.id == id
  }

  /** `defs[i]` is the first definition with that id. */
  predicate IsFirstIndex(defs: seq<ServiceDefinition>, id: string, i: int) {
    && 0 <= i < |defs|
    && defs[i].id == id
    && forall k :: 0 <= k < i ==> defs[k].id != id
  }

  function SameId(id: string): ServiceDefinition -> bool {
    (d: ServiceDefinition) => d.id == id
  }

  function OtherId(id: string): ServiceDefinition -> bool {
    (d: ServiceDefinition) => d.id != id
  }

  /** The file written when none exists. */
  function InitialFile(): (f: RegistryFile)
    ensures f.version == REGISTRY_VERSION && f.services == []
  {
    RegistryFile(REGISTRY_VERSION, [])
  }

  /** `load`: accept the parsed file only at version 1. */
  function Load(path: string, file: RegistryFile): (r: Result<RegistryManager, RegistryError>)
    ensures r.Ok? <==> file.version == REGISTRY_VERSION
    ensures r.Ok? ==> r.value.path == path && r.value.definitions == file.services
    ensures r.Err? ==> r.error == UnsupportedVersion(file.version)
  {
    if file.version != REGISTRY_VERSION then Err(UnsupportedVersion(file.version))
    else Ok(RegistryManager(path, file.services))
  }

  /** `load_or_init`: with no file on disk the initial file is written and loaded. */
  function LoadOrInit(path: string, existing: Option<RegistryFile>): (r: Result<RegistryManager, RegistryError>)
    ensures existing.None? ==> r == Ok(RegistryManager(path, []))
    ensures existing.Some? ==> r == Load(path, existing.value)
  {
    Load(path, existing.GetOr(InitialFile()))
  }

  function ListDefinitions(m: RegistryManager): seq<ServiceDefinition> {
    m.definitions
  }

  /** `add`: refuse a known id, otherwise append. */
  function Add(m: RegistryManager, def: ServiceDefinition): (r: Result<RegistryManager, RegistryError>)
    ensures r.Err? <==> HasId(m.definitions, def.id)
    ensures r.Err? ==> r.error == AlreadyExists(def.id, def.port)
    ensures r.Ok? ==> r.value.path == m.path && r.value.definitions == m.definitions + [def]
    ensures r.Ok? && UniqueIds(m.definitions) ==> UniqueIds(r.value.definitions)
  {
    if HasId(m.definitions, def.id) then
      Err(AlreadyExists(def.id, def.port))
    else
      Ok(m.(definitions := m.definitions + [def]))
  }

  /** `update(id, def)`: overwrite the first definition with that id, in place. */
  function Update(m: RegistryManager, id: string, def: ServiceDefinition): (r: Result<RegistryManager, RegistryError>)
    ensures r.Err? <==> !HasId(m.definitions, id)
    ensures r.Err? ==> r.error == NotFound(id)
    ensures r.Ok? ==> |r.value.definitions| == |m.definitions| && r.value.path == m.path
    ensures r.Ok? ==> exists i :: IsFirstIndex(m.definitions, id, i) && r.value.definitions == m.definitions[i := def]
  {
    match FirstIndex(m.definitions, SameId(id))
    case None => Err(NotFound(id))
    case Some(i) =>
      assert IsFirstIndex(m.definitions, id, i);
      Ok(m.(definitions := m.definitions[i := def]))
  }

  /** `get(id)`: the first definition with that id. */
  function Get(m: RegistryManager, id: string): (r: Option<ServiceDefinition>)
    ensures r.None? <==> !HasId(m.definitions, id)
    ensures r.Some? ==> r.value.id == id
    ensures r.Some? ==> exists i :: IsFirstIndex(m.definitions, id, i) && r.value == m.definitions[i]
  {
    match FirstIndex(m.definitions, SameId(id))
    case None => None
    case Some(i) => Some(m.definitions[i])
  }

  /** `remove(id)`: drop every definition with that id, keeping the rest in order;
      an error exactly when nothing was dropped. */
  function Remove(m: RegistryManager, id: string): (r: Result<RegistryManager, RegistryError>)
    ensures r.Err? <==> !HasId(m.definitions, id)
    ensures r.Err? ==> r.error == NotFound(id)
    ensures r.Ok? ==> r.value.path == m.path && !HasId(r.value.definitions, id)
    ensures r.Ok? ==> forall d :: d in r.value.definitions <==> d in m.definitions && d.id != id
    ensures r.Ok? ==> |r.value.definitions| < |m.definitions|
    ensures r.Ok? ==>
      SelectedAt(m.definitions, OtherId(id), 0, r.value.definitions, KeptIndices(m.definitions, OtherId(id), 0))
  {
    FilterKeepsOrder(m.definitions, OtherId(id));
    var kept := Filter(m.definitions, OtherId(id));
    if |kept| == |m.definitions| then Err(NotFound(id))
    else Ok(m.(definitions := kept))
  }

  /** `update` keeps ids unique when the new definition keeps the id it replaces. */
  lemma UpdateKeepsIdsUnique(m: RegistryManager, id: string, def: ServiceDefinition)
    requires UniqueIds(m.definitions) && def.id == id
    ensures Update(m, id, def).Ok? ==> UniqueIds(Update(m, id, def).value.definitions)
  {
  }

  /** ... but not when it carries another definition's id: the registry does not check. */
  lemma UpdateCanDuplicateIds()
    ensures var a := ServiceDefinition("a", "a", false, "", [], map[], true, None, None, None);
      var b := a.(id := "b");
      var m := RegistryManager("projects.json", [a, b]);
      && UniqueIds(m.definitions)
      && Update(m, "a", b).Ok?
      && !UniqueIds(Update(m, "a", b).value.definitions)
  {
    var a := ServiceDefinition("a", "a", false, "", [], map[], true, None, None, None);
    var b := a.(id := "b");
    var m := RegistryManager("projects.json", [a, b]);
    assert m.definitions[0].id != m.definitions[1].id;
    var u := Update(m, "a", b).value.definitions;
    assert u[0].id == u[1].id;
  }

  /** With unique ids, `get` finds exactly the definition carrying that id. */
  lemma GetWithUniqueIds(m: RegistryManager, id: string, d: ServiceDefinition)
    requires UniqueIds(m.definitions)
    ensures Get(m, id) == Some(d) <==> d in m.definitions && d.id == id
  {
  }

  /** A definition just added is what `get` returns for its id. */
  lemma GetAfterAdd(m: RegistryManager, def: ServiceDefinition)
    requires Add(m, def).Ok?
    ensures Get(Add(m, def).value, def.id) == Some(def)
  {
    var defs := Add(m, def).value.definitions;
    assert defs[|m.definitions|] == def;
  }

  /** Removing the id just added gives back the registry before the add. */
  lemma RemoveUndoesAdd(m: RegistryManager, def: ServiceDefinition)
    requires Add(m, def).Ok?
    ensures Remove(Add(m, def).value, def.id) == Ok(m)
  {
    var keep := OtherId(def.id);
    var defs := m.definitions + [def];
    assert Add(m, def).value.definitions == defs;
    assert !HasId(m.definitions, def.id);
    forall j | 0 <= j < |m.definitions|
      ensures keep(m.definitions[j])
    {
      assert m.definitions[j] in m.definitions;
    }
    FilterKeepsAll(m.definitions, keep);
    assert !keep(def);
    assert Filter([def], keep) == [];
    FilterDistributes(m.definitions, [def], keep);
    assert Filter(defs, keep) == m.definitions;
  }

  lemma {:induction false} FilterKeepsAll(defs: seq<ServiceDefinition>, keep: ServiceDefinition -> bool)
    requires forall j :: 0 <= j < |defs| ==> keep(defs[j])
    ensures Filter(defs, keep) == defs
    decreases |defs|
  {
    if |defs| > 0 {
      FilterKeepsAll(defs[1..], keep);
      assert [defs[0]] + defs[1..] == defs;
    }
  }
}
